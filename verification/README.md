# A verified model of the payment ledger

A Dafny model of the concurrent core of the payment platform: the provider's transaction ledger
(Silvergate), product purchases, the merchant's mirror of the provider (paymanager), the webhook
inbox (ingest), keyset pagination, and the Kafka consumer stack.

    dafny verify dfyconfig.toml --resource-limit 2000000

## How it is built

Shared tables are modelled as step machines: a state value, an `Event` for every SQL statement,
acquirer call or goroutine step, and `Run`, which applies any events in any order. An event that
would have to wait for a row lock or a unique index leaves the state as it is; it may come again.
What a theorem says of `Run(INIT, es)` it says of every interleaving of any number of clients.

* **Provider ledger.** `Book` is the sequential reference: each operation done at once. `Ledger`
  interleaves Capture and Refund (RepeatableRead, first updater wins), Void (`SELECT ... FOR UPDATE`
  with the bank call under the lock), and autocommit statements (compare-and-set, relative release,
  goroutine steps), with row versions, locks, uncommitted images and unique indexes from `RowStore`.
  `LedgerProofs` and `LedgerTheorems` show that it refines `Book`; `LedgerMoney`, `LedgerVoid` and
  `LedgerPurchases` state what follows. `LedgerCalls` says field by field what each recorded operation means.
* **Purchases and products.** `Shop` interleaves purchase calls, product updates, archiving, and the
  rest of the provider on stored rows; `ShopTheorems`, `ShopCatalog`, `ShopEdits` and `ShopPrice` state
  the results, `ShopCalls` field by field what a purchase answers and leaves behind.
* **Merchant mirror.** `Mirror` is the webhook handler, first atomic, then statement by statement, and
  `MirrorCalls` says field by field what each webhook does;
  `World` runs it together with the provider's ledger over a network that may lose, duplicate,
  reorder and redeliver webhooks; `WorldDelivery` and `WorldStatus` say what gets through.
* **Inbox, paging, consumer, slug.** `Inbox` with any number of workers, whose results `InboxKeys`
  (which webhooks get a row), `InboxTheorems` (safety) and `InboxDrain` (progress) state; `Paging` with `EventSink`, `Consumer`, and `Slug`.
* **Code.** `SilvergateService`, `PurchaseService`, `PaymentService`, `InboxWorker`, `EventSink` and
  `Consumer` hold the services and repositories in imperative form. Their classes work on tables in
  mutable fields, beside the machine they are proved against. Between any two statements `Others` lets
  other clients do anything the machine allows, and any statement may fail. Each method is proved to be
  a program of the machine that tells its caller exactly what the machine recorded for it (`Recorded`).

## Assumptions

* Amounts of authorizations and refunds are at least 1. The request bindings demand it; smaller ones are
  answered `BadRequest` in the model and change nothing.
* A statement that reports an error had no effect, and an acquirer call that fails counts as refused.
* Ids generated by the services are fresh: an insert under an id in use has no effect on the row there.
* There is one payment for each provider transaction, since CreatePayment stores the id its own
  authorization returned.
* The tables carry the unique indexes and CHECK constraints their migrations declare.

## What the code does not keep

For each of these a lemma or a contract gives the exact condition, and where it helps a concrete run is given too.

* A row can leave its declared life cycle when a refund is released; a release keeps to the table
  exactly when the row is partially refunded and stays so (`LedgerMoney.ReleaseKeepsTheTableIff`,
  `LedgerWitness.ReleaseLeavesTheTable`).
* A transaction voided at the bank may still be captured and settled, exactly when the database transaction
  of the void ends in anything but its commit (`LedgerVoid.VoidedAtTheBankCapturedIff`,
  `LedgerWitness.VoidedAtTheBankYetSettled`).
* Settlement is never mirrored: the settle webhook carries `capture_pending`, which the merchant
  rejects (`WorldDelivery.SettleWebhookRejected`, `WorldDelivery.SettlementNeverMirrored`).
* Payment statuses leave their table under unguarded writes and refund webhooks, exactly as
  `MirrorTheorems.KeepsTheTableIff` says; the first refund credited to a payment always does, since
  settlements never arrive (`WorldStatus.FirstCreditLeavesTheTable`, `WorldStatus.PendingBecomesRefunded`).
* A purchase may charge a price edited away before the product was locked: it is sure to charge the final
  price exactly when the product had been purchased before it was read, or its key is taken so that it will
  never be stored (`ShopPrice.ReadPriceIsFinalIff`, `ShopEdits.FirstPurchaseMayChargeAnOldPrice`).
* A product update that misses its row may be answered "not found" for a product that exists, exactly when
  the product was archived for the write and accepts the update again at the second look
  (`ShopEdits.SpuriousNotFoundInRuns`, `ShopEdits.NotFoundForAnExistingProduct`).
* A product update that was written is answered with an error exactly when its third statement, the read that
  follows the write, fails (`PurchaseService.Service.Update`, `PurchaseService.WrittenButBroken`).
* With no retry attempts configured, inbox messages are marked processed without being sent; with at
  least one, or with an empty batch, never (`InboxTheorems.ProcessedMeansAcknowledgedIff`).
* Of the refund webhooks of a transaction the inbox keeps exactly the one that arrived first
  (`InboxKeys.OnlyTheFirstRefundIsKept`, `InboxKeys.SecondRefundIsLost`), and the worker sends no payment
  webhook at all (`InboxKeys.PaymentWebhooksAreNeverSent`).
* The bare consumer commits past failed messages, exactly when an offset never succeeded and the commit of a
  later one went through (`Consumer.BareLeavesNoGapIff`).

## Model

| member | source | states |
|---|---|---|
| LedgerTheorems.Linearizable | services/silvergate/internal/transaction/service.go:117-353 | In every interleaving of captures, refunds, voids and goroutine steps, the committed ledger and every reply on record are those of the recorded operations done atomically one after the other, and the sequential invariant holds |
| LedgerTheorems.HistoryOnlyGrows | services/silvergate/internal/transaction/service.go:117-353 | Later events only append to the record of operations, so the sequential order is the order in which calls take effect |
| LedgerTheorems.CommitOverwritesWhatItRead | services/silvergate/internal/transaction/transactionrepo/pg.go:91-155 | Each committed call overwrites the very version it read, writes the image planned from it, moves that row one version on and leaves every other row alone |
| LedgerProofs.StepCoherent | services/silvergate/internal/transaction/transactionrepo/pg.go:104-155 | Every event keeps locks, snapshots, uncommitted images and in-flight unique keys consistent: a lock has one holder whose image was made from the current row, and stale readers see a newer version |
| LedgerProofs.StepExplained | services/silvergate/internal/transaction/service.go:117-310 | Every event changes nothing visible, or does exactly what one atomic operation does and records that operation's reply |
| LedgerTheorems.SoloCapture | services/silvergate/internal/transaction/service.go:117-155 | On a row nobody holds, whatever calls are under way on others, the statements of Capture leave the ledger and reply of the atomic capture |
| LedgerCalls.EveryEntryMeans | services/silvergate/internal/transaction/service.go:61-353 | In every interleaving each recorded operation did to the fields of its rows, and answered, what is written out here: authorizations store the request for the verdict; captures need an authorized row and a key new to the merchant and hand on the amount asked for; voids need an authorized row and the bank; refunds of any part of what is left are taken from captured and partially refunded rows, larger ones exceed, other statuses are not refundable; goroutines write and report what the bank said |
| LedgerCalls.UndisturbedCapture | services/silvergate/internal/transaction/service.go:117-155 | In every run, on every row nobody holds, the statements of a capture end with one answer that means this |
| LedgerCalls.UndisturbedVoid | services/silvergate/internal/transaction/service.go:280-324 | The same for a void |
| LedgerCalls.UndisturbedRefund | services/silvergate/internal/transaction/service.go:170-229 | The same for a refund |
| LedgerCalls.RefundInParts | services/silvergate/internal/transaction/service.go:183-196 | In every run a captured or partially refunded row nobody holds can be refunded in any parts that together fit into what is left of it, each accepted in turn |
| LedgerTheorems.SoloVoid | services/silvergate/internal/transaction/service.go:280-324 | On a row nobody holds, the statements of Void do what the atomic void does, for either answer of the bank |
| LedgerTheorems.SoloRefund | services/silvergate/internal/transaction/service.go:170-229 | On a row nobody holds, the statements of Refund do what the atomic refund does: reserve, insert, or refuse with the same error |
| BookProofs.StepKeepsInv | services/silvergate/internal/transaction/service.go:61-353 | Every atomic operation keeps balances equal to the reservations held, rows and refunds in step with their goroutines, idempotency keys unique, and sent webhooks truthful |
| LedgerMoney.RefundConservation | services/silvergate/internal/transaction/service.go:187-268 | In every run refunded_amount is the sum of the pending, the done, and the failed but unreleased refunds of the transaction, lies between 0 and amount, and the status is partially_refunded or refunded exactly as the balance says |
| LedgerMoney.BankNeverOverpays | services/silvergate/internal/transaction/service.go:233-272 | The refunds the bank accepted, including those whose status update was lost, never exceed the reserved balance nor the amount |
| LedgerMoney.FullyPaidIsRefunded | services/silvergate/internal/transaction/service.go:187-196 | If the done refunds exhaust the amount, the provider row says refunded |
| LedgerMoney.ReleaseNeverOverdraws | services/silvergate/internal/transaction/transactionrepo/pg.go:237-248 | Whenever a goroutine is about to release, the row exists and carries at least that amount, so the CHECK on the balance never rejects a release |
| LedgerMoney.SettleNeverMisses | services/silvergate/internal/transaction/service.go:345-348 | The compare-and-set after settlement always finds capture_pending |
| LedgerMoney.StatusHistory | services/silvergate/internal/transaction/entity.go:116-134 | Every committed change of a row is a declared transition or one of the three release edges and keeps what was bought; done refunds never change again |
| LedgerMoney.AbsorbingForever | services/silvergate/internal/transaction/entity.go:116-121 | Declined, voided and capture_failed rows never change again; purchase data of any row never changes; no row becomes authorized again |
| LedgerMoney.CaptureAndVoidExclude | services/silvergate/internal/transaction/service.go:117-324 | No run accepts two captures, two voids, or a capture and a void of one transaction |
| LedgerMoney.BankAskedOnce | services/silvergate/internal/transaction/service.go:149-348 | The acquirer settles a transaction at most once, only after an accepted capture and for the amount that capture asked for, and is asked for each refund at most once |
| LedgerMoney.ReleaseKeepsTheTableIff | services/silvergate/internal/transaction/transactionrepo/pg.go:237-242 | A release follows the declared table if and only if the row is partially refunded and more than this refund is reserved |
| LedgerWitness.ReleaseLeavesTheTable | services/silvergate/internal/transaction/service.go:251-268 | A concrete run in which a full refund the bank refuses takes a row from refunded back to captured |
| LedgerVoid.OpenVoidHoldsTheRow | services/silvergate/internal/transaction/service.go:280-310 | While a void the bank has carried out is open, in every run, its row is authorized and locked by it, and no capture of it has been accepted or settled |
| LedgerVoid.CommittedVoidIsFinal | services/silvergate/internal/transaction/service.go:280-324 | After the commit of such a void no continuation of the run ever captures or settles the transaction |
| LedgerVoid.VoidedAtTheBankCapturedIff | services/silvergate/internal/transaction/service.go:280-310 | In every run, however the database transaction of a void the bank has carried out ends: some continuation captures the transaction, and has it settled, if and only if that end was not its commit |
| LedgerWitness.VoidedAtTheBankYetSettled | services/silvergate/internal/transaction/service.go:280-310 | A concrete run in which the bank voids, the database transaction fails, and a later capture is settled |
| LedgerPurchases.RunsKeepPurchaseKeys | services/silvergate/migrations/20260524001_add_purchase_columns.sql:12-14 | In every run of the ledger at most one transaction is stored for a merchant and purchase key |
| LedgerPurchases.OneCaptureAccepted | services/silvergate/internal/purchase/service.go:120-139 | Whoever asks for captures, with whatever capture keys, no run accepts two captures for one merchant and purchase key |
| Database.OthersKeepOut | services/silvergate/internal/transaction/service.go:117-353 | No event of another client touches the open database transaction of a call, nor the state of another's goroutine |
| Database.UpdateDecides | services/silvergate/internal/transaction/transactionrepo/pg.go:131-197 | The answer of an UPDATE (written, waiting, serialization failure, unique violation) decides which way the machine's step goes |
| Database.Postgres.Update | services/silvergate/internal/transaction/transactionrepo/pg.go:131-197 | UPDATE of one row by id in a database transaction: not there, waits, serialization failure, waits for the index, unique violation, or the assigned columns staged under the lock |
| Database.Postgres.SelectForUpdate | services/silvergate/internal/transaction/transactionrepo/pg.go:104-116 | Takes the row lock and returns the current row, or is kept waiting, or finds nothing |
| Database.Postgres.CompareAndUpdateStatus | services/silvergate/internal/transaction/transactionrepo/pg.go:157-177 | Sets the status only where the expected one is found, on its own, waiting for a row lock |
| Database.Postgres.ReleaseRefundAmount | services/silvergate/internal/transaction/transactionrepo/pg.go:237-248 | Relative subtraction and status on the current row, refused by the CHECK when it would go below zero |
| SilvergateService.Entity.MarkCapturePending | services/silvergate/internal/transaction/entity.go:79-87 | Marks and keys the in-memory copy if and only if it is authorized |
| SilvergateService.Entity.MarkVoided | services/silvergate/internal/transaction/entity.go:107-114 | Voids the in-memory copy if and only if it is authorized |
| SilvergateService.Service.Authorize | services/silvergate/internal/transaction/service.go:75-104 | Stores a row for the acquirer's verdict, with the purchase link only when both halves are given, and answers what the machine does |
| SilvergateService.Service.Capture | services/silvergate/internal/transaction/service.go:117-155 | The caller is told exactly what the machine recorded for this capture, or an error when nothing was recorded, and its database transaction is over |
| SilvergateService.Service.Refund | services/silvergate/internal/transaction/service.go:170-229 | The same for a refund; an accepted one carries the id of the refund row inserted |
| SilvergateService.Service.Void | services/silvergate/internal/transaction/service.go:280-324 | The caller is told what the machine recorded for the answer of the bank, which is asked about this transaction at most once, and always when the answer is accepted or refused by the bank |
| SilvergateService.Service.SettleAsync | services/silvergate/internal/transaction/service.go:329-353 | Asks the bank exactly once to settle this transaction for the amount of an accepted capture of it, then writes and reports; only a failing statement stops it, and it ends |
| SilvergateService.Service.RefundAsync | services/silvergate/internal/transaction/service.go:233-272 | Asks the bank exactly once to pay back the amount of the refund, records the answer, releases a refused amount once after fewer than three failures or not at all after three, never releases an accepted one, reports, and ends |
| SilvergateService.Service.ReleaseAmount | services/silvergate/internal/transaction/service.go:252-266 | The release loop: one success after fewer than three failures, or three failures |
| MirrorProofs.Linearizable | services/paymanager/internal/payment/service.go:180-270 | In every interleaving of webhook handlers and unguarded status writes, the mirror and every answer are those of the recorded operations one after the other |
| MirrorTheorems.ExactlyOnceEffect | services/paymanager/internal/payment/service.go:190-221 | In every run a payment's RefundedAmount is the sum over the distinct refund ids whose webhook committed |
| MirrorTheorems.CreditedOnce | services/paymanager/internal/eventstore/pg.go:33-56 | No two committed handlers of a run credit the same refund |
| MirrorTheorems.SoloDelivery | services/paymanager/internal/payment/service.go:180-270 | On a payment whose row and event nobody else is writing, a handler does exactly what processing the webhook atomically does |
| MirrorCalls.EveryEntryMeans | services/paymanager/internal/payment/service.go:180-270 | In every interleaving each recorded webhook did this: a refund was credited once whatever the status, captured and capture_failed moved a capture_pending payment and voided an authorized one, each with its event, on any other status they were ignored, and only other texts were unknown |
| MirrorCalls.UndisturbedDelivery | services/paymanager/internal/payment/service.go:180-270 | In every run, on every payment whose row nobody holds, the statements of a handler end with one answer that means this |
| WorldStatus.SentVoidIsMirrored | services/paymanager/internal/payment/service.go:223-250 | In every story a void webhook that was sent tells of a voided row, and handled undisturbed makes an authorized payment voided, leaves its balance and stores the event; on any other status it is ignored |
| MirrorTheorems.KeepsTheTableIff | services/paymanager/internal/payment/entity.go:22-40 | An applied operation keeps to the payment status table exactly when an unguarded write meets an authorized payment, or a refund webhook a captured or partially refunded one; it touches one payment |
| MirrorTheorems.RefundKeysDiffer | services/paymanager/internal/payment/service.go:203 | The refund key format tells the refunds of a transaction apart |
| World.CrossServiceBound | services/paymanager/internal/payment/service.go:190-220 | With webhooks lost, duplicated, reordered and redelivered, the merchant's RefundedAmount is at most the provider's done refunds, these at most the amount, the amounts agree, and a refunded mirror means a refunded provider row |
| World.CreditsWerePaid | services/silvergate/internal/webhooksender/sender.go:68-87 | Every credited refund was done at the provider, for the same transaction and amount |
| WorldDelivery.SettleWebhookRejected | services/silvergate/internal/transaction/service.go:345-350 | The settle webhook carries capture_pending and is refused by every mirror |
| WorldDelivery.SettlementNeverMirrored | services/paymanager/internal/payment/service.go:223-243 | In no run does a payment become captured or capture_failed |
| WorldStatus.FirstCreditLeavesTheTable | services/paymanager/internal/payment/service.go:190-221 | In every story, whatever was delivered and marked before, the first refund credited to a payment takes it out of its status table, and a later one keeps to the table exactly when the payment is partially refunded |
| WorldStatus.PendingBecomesRefunded | services/paymanager/internal/payment/service.go:190-221 | A concrete story of provider and merchant in which a settled and refunded sale takes the payment from capture_pending to refunded |
| WorldDelivery.FreshRefundIsApplied | services/paymanager/internal/payment/service.go:190-221 | The webhook of a done refund not credited yet is applied, whatever was delivered before |
| WorldDelivery.CreditedIsRefused | services/paymanager/internal/eventstore/pg.go:44-48 | The webhook of a credited refund is refused and changes nothing |
| WorldDelivery.CaughtUp | services/paymanager/internal/payment/service.go:190-220 | Once all done refunds are credited, the mirror shows exactly the provider's total |
| PaymentService.Service.ProcessCaptureWebhook | services/paymanager/internal/payment/service.go:180-270 | The handler answers exactly what the machine recorded for it, or an error when nothing was recorded; balance or status and event row commit together or not at all |
| PaymentService.MerchantDb.CreateEvent | services/paymanager/internal/eventstore/pg.go:33-56 | The event insert waits for an in-flight key, is refused for a stored one, or goes in |
| PaymentService.MerchantDb.Update | services/paymanager/internal/payment/paymentrepo/pg.go:87-131 | The status or refund UPDATE under a snapshot: waits, serialization failure, or staged |
| Catalog.GuardIsRevalidation | services/silvergate/internal/product/update.go:36-72 | An update validated against one version of a product meets the WHERE guard on another exactly when NewUpdate would accept it there, with the same result |
| Catalog.AcceptedUpdate | services/silvergate/internal/product/update.go:36-72 | Field by field what an accepted update does; a slug it sets is valid, and a purchased product keeps slug, price and currency |
| Slug.SlugLanguage | services/silvergate/internal/product/entity.go:58-68 | The slug pattern accepts exactly the non-empty strings of a-z, 0-9 and dash without a leading, trailing or doubled dash |
| ShopProofs.RunsSound | services/silvergate/internal/purchase/service.go:75-146 | In every run each purchase call's row, locks and in-flight keys are what its stage relies on, and no two calls are about to store or capture the same purchase |
| ShopTheorems.OneTransactionPerKey | services/silvergate/migrations/20260524001_add_purchase_columns.sql:12-14 | At most one transaction is ever stored for a merchant and purchase key |
| ShopTheorems.AnswersAreTruthful | services/silvergate/internal/purchase/service.go:75-205 | Every answer that is not an error carries id, order, product, amount and currency of the transaction stored under its key, and its request is the one that transaction was made for; every conflict has a transaction stored under its key for another order, card or product; no race ends in not-found |
| ShopCalls.StoredKeyIsAnswered | services/silvergate/internal/purchase/service.go:148-205 | In every run a call whose key is stored gets the stored purchase back if order, card and product agree, field by field, and a conflict otherwise |
| ShopCalls.LostRaceIsAnswered | services/silvergate/internal/purchase/service.go:166-205 | In every run a call that lost its race finds the winner and is answered from it in the same way |
| ShopCalls.LateInsertIsAnswered | services/silvergate/internal/purchase/service.go:109-179 | In every run a call that comes to insert its row and finds its key stored by then is answered from that row in the same way |
| ShopCalls.UndisturbedPurchase | services/silvergate/internal/purchase/service.go:75-140 | The statements of a purchase with a new key end as written out here: without key, product, active product or bank it is refused and nothing is stored; declined it is stored and marks nothing; approved it is stored at the price of the product, marks it if it is the first, starts the capture, and tells whether that failed |
| ShopCalls.CatalogStepsMean | services/silvergate/internal/product/productrepo/pg.go:182-226 | Archiving, unarchiving and marking touch the merchant's own product when no purchase holds it; a new product needs a positive price, a three-letter currency and a slug new to the merchant |
| ShopTheorems.OneOutcomePerKey | services/silvergate/internal/purchase/service.go:148-189 | All such answers under one key agree except for the status, and so do their requests |
| ShopTheorems.RacesAreResolved | services/silvergate/internal/purchase/service.go:166-179 | After a lost insert the re-read finds the winner, and nobody else, and the call is answered from it |
| ShopTheorems.OneCapturePerKey | services/silvergate/internal/purchase/service.go:120-139 | The purchase path starts at most one capture for a merchant and key, of a stored purchase that was not declined |
| ShopTheorems.LedgerStepsAreMoves | services/silvergate/internal/transaction/entity.go:116-134 | Every step of the provider's ledger on a stored row is one the purchase model lets happen |
| ShopCatalog.MarkedIffSold | services/silvergate/internal/purchase/service.go:91-118 | In every run a product is marked as purchased by purchases exactly when a purchase of it that was not declined is stored |
| ShopCatalog.PurchasesMarkExactly | services/silvergate/internal/product/productrepo/pg.go:203-226 | Where only purchases mark products, marked and sold are the same |
| ShopCatalog.FrozenForever | services/silvergate/internal/product/productrepo/pg.go:120-226 | Once first_purchased_at is committed, it, slug, price and currency never change under any interleaving |
| ShopCatalog.FrozenPriceIsCharged | services/silvergate/internal/purchase/service.go:82-100 | A purchase that read the product after its first purchase charges the frozen price and currency |
| ShopCatalog.SamePriceForAll | services/silvergate/internal/purchase/service.go:82-100 | Any two such purchases of a product charge the same |
| ShopCatalog.SlugsStayUnique | services/silvergate/migrations/20260518001_create_products_table.sql:19-21 | No two products of a merchant ever share a slug |
| ShopEdits.AtomicUpdateMeans | services/silvergate/internal/product/update.go:36-72 | What the atomic update answers, check by check in their order, and the row it leaves, field by field |
| ShopEdits.EditWriteIsAtomic | services/silvergate/internal/product/service.go:78-98 | In every interleaving the guarded write does to the table what validating and writing at that instant would do, with the same answer, or leaves it alone where that would refuse |
| ShopEdits.SoloEdit | services/silvergate/internal/product/productrepo/pg.go:120-163 | With no other writer in between, the update is the atomic one, answer included: the guarded UPDATE does not miss |
| ShopEdits.SpuriousNotFoundIff | services/silvergate/internal/product/productrepo/pg.go:168-180 | A missed update of an existing product is answered not-found exactly when the row would accept it at the second read, and otherwise with validation's own error |
| ShopEdits.SpuriousNotFoundInRuns | services/silvergate/internal/product/productrepo/pg.go:120-180 | Over whole runs, whatever comes between a missed write and the second look: the answer is not-found for an existing product exactly when the product was archived for the write, is active again, and was not purchased by then in a way that forbids the update |
| ShopEdits.NotFoundForAnExistingProduct | services/silvergate/internal/product/productrepo/pg.go:168-180 | A concrete run of that kind: archived before the write, unarchived before the second read |
| ShopEdits.FirstPurchaseMayChargeAnOldPrice | services/silvergate/internal/purchase/service.go:82-118 | A concrete run in which 100 is charged and 200 is the frozen price |
| ShopPrice.ChargesWhatItRead | services/silvergate/internal/purchase/service.go:82-100 | Whatever other clients do in between, a purchase charges the price and currency it read |
| ShopPrice.ChargeIsFinalIff | services/silvergate/internal/purchase/service.go:82-118 | In every run the amount and currency of a committed purchase are the product's for good if and only if the product still had them when the purchase locked or checked it before its commit |
| ShopPrice.ChargesFinalPriceIff | services/silvergate/internal/purchase/service.go:82-118 | For a purchase that has read its product in any reachable state: no continuation stores it approved at another price than the product's final one if and only if that price is final by now or its key is taken |
| ShopPrice.ReadPriceIsFinalIff | services/silvergate/internal/purchase/service.go:82-118 | The same at the moment of the read: if and only if the product had been purchased before, or the key is taken |
| PurchaseService.Service.Purchase | services/silvergate/internal/purchase/service.go:75-140 | The caller gets the one answer the machine recorded for this call; and if the ledger decided on a capture for it, the answer is a success exactly when the ledger accepted that capture, for the stored transaction, its amount and a key of its own |
| PurchaseService.Service.Capture | services/silvergate/internal/purchase/service.go:120-139 | Once the purchase is stored, the caller is told success exactly when the ledger has an accepted capture on record for this call, partially applied when the ledger refused or failed, and an error only when the call broke before asking |
| PurchaseService.Service.CheckIdempotency | services/silvergate/internal/purchase/service.go:148-164 | A call goes on exactly when its key is not stored; otherwise it is answered from the stored transaction, with success if order, card and product agree and a conflict if not |
| PurchaseService.Service.ResolveRace | services/silvergate/internal/purchase/service.go:166-179 | A lost race is answered from the winner in the same way, unless a statement fails |
| PurchaseService.Service.Update | services/silvergate/internal/product/service.go:78-98 | An updated product was written and is returned as it stands then; a rejection is the answer on record; a written update is answered with an error exactly when the third statement fails; undisturbed, table and record are those of the atomic update |
| PurchaseService.WrittenButBroken | services/silvergate/internal/product/service.go:89-97 | A concrete call that raises a price and is answered with an error |
| PurchaseService.ShopDb.MarkPurchased | services/silvergate/internal/product/productrepo/pg.go:203-226 | Marks an unpurchased product under its row lock, accepts a purchased one, reports a missing one, or waits |
| PurchaseService.ShopDb.UpdateProduct | services/silvergate/internal/product/productrepo/pg.go:120-163 | The guarded UPDATE on the current row: waits, misses, is refused by a constraint, or writes |
| InboxProofs.RunsSound | services/ingest/repo/inbox/pg_inbox_repo.go:60-157 | In every run of any number of workers, rows, claims, batches and keys stay consistent |
| InboxProofs.RetryDecides | services/ingest/apiclient/retry.go:29-61 | DoWithRetry makes between one and n requests, all but the last answered "service unavailable", and returns what the last one decides |
| InboxDrain.ExactlyOneClaimant | services/ingest/worker/inbox_worker.go:60-97 | In every run of any number of workers without crashes and failed writes, each message marked processing is in the hands of exactly one worker |
| InboxDrain.IdleMeansSettled | services/ingest/worker/inbox_worker.go:60-97 | In such a run, once all workers are idle and there is nothing to claim, every message is processed or failed |
| InboxDrain.NotStuck | services/ingest/worker/inbox_worker.go:60-97 | While a message is neither processed nor failed, its worker, or any idle one, can take a step that brings the inbox nearer its end |
| InboxDrain.OnlySoMuchToDo | services/ingest/worker/inbox_worker.go:60-97 | Without new messages, crashes and failed writes, no continuation by any number of workers takes more such steps than were left at its start |
| InboxDrain.Drains | services/ingest/worker/inbox_worker.go:60-97 | From every such state there are steps of the workers after which every message is processed or failed |
| InboxTheorems.ClaimsAreExclusive | services/ingest/repo/inbox/pg_inbox_repo.go:82-119 | A message is in the hands of at most one worker, and marked processing while claimed |
| InboxTheorems.ClaimsAndRequestsAreBounded | services/ingest/worker/inbox_worker.go:60-97 | A message is claimed at most max(1, MaxRetries) times and sent at most RetryAttempts times for each claim |
| InboxTheorems.ProcessedMeansAcknowledgedIff | services/ingest/worker/inbox_worker.go:99-126 | Every processed message was answered with success or conflict, in every run, if and only if at least one attempt is configured or the batch size lets nothing be claimed |
| InboxTheorems.FailedMeansRefusedOrExhausted | services/ingest/repo/inbox/pg_inbox_repo.go:136-157 | In every run a message that failed for good was refused with a permanent error or has used max(1, MaxRetries) retries; a refused one never ends otherwise, and one answered with success or conflict never ends but processed |
| InboxTheorems.OneRowPerKey | services/ingest/repo/inbox/pg_inbox_repo.go:60-78 | A key once stored has exactly one row from then on |
| InboxTheorems.StoreStores | services/ingest/repo/inbox/pg_inbox_repo.go:60-78 | After a store the key has a row, new or old |
| InboxTheorems.WriteBacksAreBounded | services/ingest/repo/inbox/pg_inbox_repo.go:122-157 | Without new messages, every write-back lowers the sum of remaining retries, so there are at most that many, crashes included |
| InboxTheorems.SpentMeansSettled | services/ingest/repo/inbox/pg_inbox_repo.go:136-157 | When nothing is left of that sum, every message is processed or failed |
| InboxWorker.InboxDb.LockOldest | services/ingest/repo/inbox/pg_inbox_repo.go:84-95 | The chosen rows are pending and locked by nobody, as many as the batch size and the table allow, and none left out is older |
| InboxWorker.InboxDb.FetchPending | services/ingest/repo/inbox/pg_inbox_repo.go:82-119 | The worker's batch is the chosen rows, each once; with nobody in between, one step of choosing and claiming |
| InboxWorker.InboxDb.MarkFailed | services/ingest/repo/inbox/pg_inbox_repo.go:136-157 | One more retry on record, failed for good if and only if it reaches the limit, pending otherwise, and nothing else changed |
| InboxWorker.InboxDb.Receive | services/ingest/webhook/inbox.go:22-71 | A duplicate webhook is accepted and changes nothing; any other gets a row with its key, type and payload, and no other row changes |
| InboxKeys.KeysIdentifyWebhooks | services/ingest/webhook/inbox.go:22-71 | Two webhooks share a key exactly when they agree on type and provider event id or, for payments, on transaction and event; the refund never matters, and event names must not contain a colon |
| InboxKeys.ColonsConfuse | services/ingest/webhook/inbox.go:62-63 | With colons in event names two different transactions can share a key |
| InboxKeys.KeyStoredIff | services/ingest/repo/inbox/pg_inbox_repo.go:60-78 | In every run a key is in the table exactly when a message with it was stored before |
| InboxKeys.GetsARowIff | services/ingest/repo/inbox/pg_inbox_repo.go:60-78 | In every run a message has a row of its own, with its key, type and payload, if and only if no message with its key was stored before it |
| InboxKeys.WebhookIsKeptIff | services/ingest/webhook/inbox.go:22-71 | In every run a webhook is in the inbox if and only if it once arrived before any other of the same type and event id or, for payments, of the same transaction and event |
| InboxKeys.OnlyTheFirstRefundIsKept | services/ingest/webhook/inbox.go:56-71 | In every run the webhook of a refund is in the inbox if and only if it arrived before every other refund webhook of its transaction, whatever the refund ids |
| InboxKeys.SecondRefundIsLost | services/ingest/webhook/inbox.go:56-71 | A concrete run with two refunds of one transaction, of which the second is lost |
| InboxKeys.PaymentWebhooksAreNeverSent | services/ingest/worker/inbox_worker.go:99-126 | In no run is a payment webhook, or a payload that cannot be parsed, sent or marked processed; the only end it can come to is failure |
| InboxWorker.Api.DoWithRetry | services/ingest/apiclient/retry.go:29-61 | The loop returns the result and number of requests of the recursive definition |
| InboxWorker.InboxWorker.Poll | services/ingest/worker/inbox_worker.go:60-97 | With any other workers in between, as long as nothing new arrives and nothing crashes or fails, a poll that finds something to claim strictly lowers the sum of remaining retries; alone, one that finds nothing leaves nothing to claim |
| InboxWorker.InboxWorker.Start | services/ingest/worker/inbox_worker.go:40-58 | With any other workers in between, no more polls than that sum ever find something to claim; a worker alone, with nothing in anybody's hands and a batch size of at least one, leaves every message processed or failed after as many polls |
| Paging.SortingIsUnique | services/paymanager/internal/order/orderrepo/pg_event_sink.go:155-159 | Rows with distinct positions can be sorted in one way only |
| Paging.FollowingIsTheSortedRead | services/paymanager/internal/order/orderrepo/pg_event_sink.go:58-165 | Following the cursors concatenates to the sorted rest of the table, each row once |
| Paging.PagesAreEnough | services/paymanager/internal/order/orderrepo/pg_event_sink.go:84-101 | The number of pages is one for an empty table and the least number that holds all rows otherwise |
| Paging.WalkMissesNoPosition | services/silvergate/internal/product/productrepo/pg.go:73-118 | Whatever is inserted, changed or removed between pages: what is read stays in strict order, was in the table when its page was read, and a walk that ends has shown every position that was listed all the time |
| Paging.WalkMissesNothing | services/paymanager/internal/dispute/disputerepo/pg_event_sink.go:58-165 | With rows only inserted between pages, what is read stays in strict order, and every row present from the start is read as it is |
| EventSink.Sink.GetEvents | services/paymanager/internal/order/orderrepo/pg_event_sink.go:58-101 | One call returns the page of the sorted read for the clamped limit, with a cursor exactly when there is more |
| EventSink.EventPagesReadEverything | services/paymanager/internal/dispute/disputerepo/pg_event_sink.go:58-165 | For any filters, direction and limit, following the cursors from the start gives exactly the selected events in order, in max(1, ceil(n/limit)) pages |
| EventSink.FiltersMean | services/paymanager/internal/order/orderrepo/pg_event_sink.go:104-165 | No filter selects every event, a subject or kind the events that have it, and touching time windows share none and leave none out |
| EventSink.List | services/silvergate/internal/product/productrepo/pg.go:73-118 | The product listing returns the page of the newest-first read, twenty rows by default, and refuses limits above a hundred |
| EventSink.ListingsMean | services/silvergate/internal/product/productrepo/pg.go:73-118 | A merchant is offered its own products, the archived and the active ones or both |
| EventSink.ListingMissesNothing | services/silvergate/internal/product/productrepo/pg.go:73-118 | A listing followed to its end while products are created, edited, archived and marked shows every product that is offered all the time exactly once, newest first, as it was when its page was read |
| Consumer.RunsAreBounded | pkg/messaging/middleware.go:34-63 | The handler runs between once and MaxAttempts times for each delivery, and never when MaxAttempts is not positive |
| Consumer.LastRunDecides | pkg/messaging/middleware.go:34-63 | All runs but the last failed, and the delivery succeeds exactly when the last run did |
| Consumer.GuardedLeavesNoGap | pkg/messaging/middleware.go:71-86 | Behind retry and dead-letter queue every offset below the committed one was handled or handed to the publisher, across crashes and failed commits |
| Consumer.OrderlyRun | pkg/messaging/middleware.go:34-86 | Undisturbed, the guarded consumer commits every message, and hands exactly those to the dead-letter publisher whose last allowed run failed |
| Consumer.BareLeavesNoGapIff | pkg/kafka/consumer.go:51-96 | In every run, crashes and failed commits included, the bare consumer leaves no gap exactly when no offset that never succeeded lies below one whose commit went through |
| Consumer.Handler.WithRetry | pkg/messaging/middleware.go:34-63 | The loop returns the result and number of runs of the recursive definition |
| Consumer.Reader.Start | pkg/kafka/consumer.go:46-103 | The loop is a run of the machine over the messages fetched; guarded, it resolves all of them and commits past none unresolved |

## Left out

* Deadlocks and lock timeouts: a statement that has to wait may wait for ever or fail, but no deadlock is detected.
* created_at, updated_at and processed_at columns of transactions, payments and products; they decide nothing modelled here.
* Integer width: amounts are unbounded. Balances of the provider stay between 0 and the amount, so no sum there exceeds what the source stores.
* Wall-clock delays: backoff, jitter, tick intervals and capture delays are choices of order only.
* Cursor encoding: a cursor is its (created_at, id) pair, and ids are compared as numbers.
* The CHECK constraints on currency length and on status values of transactions and payments.
* CreatePayment, VoidPayment and captureWithDelay: their unguarded status writes and the stored amount are events of the mirror; the rest is not modelled. RefundPayment only asks the provider.
* One table for purchases and captures: the code of the purchase path runs on its own view of the transactions and calls the ledger's capture on another; in the purchase machine a capture may have either outcome, and the ledger's steps are moves of it (`ShopTheorems.LedgerStepsAreMoves`).
* MarkCaptured and MarkCaptureFailed: no service calls them.
* Recovery of orphaned inbox rows: a worker that crashes, or fails to write back, leaves its message in processing for ever, as in the source; the results on exactly one claimant and on draining say so in their conditions.
* Rebalancing between several Kafka consumers of a group, and retention of the log.
* Whether the dead-letter publisher succeeds: the source ignores its error, and so does the claim.
* Order and dispute services, change data capture, analytics, HTTP handlers, configuration, logging and metrics.
* LedgerTheorems.SoloVoid: assumes coherent sessions and unique idempotency keys, which every run has (`LedgerTheorems.Linearizable`, `LedgerCalls.UndisturbedVoid`).
* LedgerTheorems.SoloRefund: assumes them too, for the same reason (`LedgerCalls.UndisturbedRefund`).
* SilvergateService.Service.Capture: says nothing about which statements fail; that undisturbed ones go through is `LedgerTheorems.SoloCapture`.
* InboxWorker.InboxWorker.Start: the ticker is a number of ticks instead of an endless loop. That other workers bring the messages in their own hands to an end depends on their being scheduled; what any schedule of them does is `InboxDrain.OnlySoMuchToDo` and `InboxDrain.NotStuck`.
