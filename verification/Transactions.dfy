/** The transaction and refund entities and the pure parts of their life cycle. */
module Transactions {
  import opened Base

  datatype Status =
    | Authorized
    | Declined
    | CapturePending
    | Captured
    | CaptureFailed
    | Voided
    | PartiallyRefunded
    | Refunded

  /** The declared life cycle; statuses without an entry have no way out. */
  predicate CanTransitionTo(from: Status, target: Status) {
    match from
    case Authorized => target == CapturePending || target == Voided
    case CapturePending => target == Captured || target == CaptureFailed
    case Captured => target == PartiallyRefunded || target == Refunded
    case PartiallyRefunded => target == PartiallyRefunded || target == Refunded
    case _ => false
  }

  /** The moves a released refund makes that the declared life cycle does not list. */
  predicate ReleaseEdge(from: Status, target: Status) {
    || (from == Refunded && (target == PartiallyRefunded || target == Captured))
    || (from == PartiallyRefunded && target == Captured)
  }

  predicate Absorbing(s: Status) {
    s == Declined || s == Voided || s == CaptureFailed
  }

  datatype Transaction = Transaction(
    merchantId: string,
    orderRef: string,
    amount: int,
    currency: string,
    cardToken: string,
    status: Status,
    declineReason: string,
    idempotencyKey: string,
    purchaseKey: string,
    productId: Option<Id>,
    refundedAmount: int)

  /** What the merchant asked for; no operation of the life cycle may change it. */
  predicate SamePurchase(a: Transaction, b: Transaction) {
    && a.merchantId == b.merchantId && a.orderRef == b.orderRef && a.amount == b.amount
    && a.currency == b.currency && a.cardToken == b.cardToken && a.declineReason == b.declineReason
    && a.purchaseKey == b.purchaseKey && a.productId == b.productId
  }

  datatype AuthRequest = AuthRequest(
    merchantId: string,
    orderRef: string,
    amount: int,
    currency: string,
    cardToken: string,
    purchaseKey: string,
    productId: Option<Id>)

  /** The acquirer's verdict on an authorization. */
  datatype Verdict = Approve | Decline(reason: string)

  /** The row an authorization inserts: the purchase link is kept only when both halves are given. */
  function NewTransaction(req: AuthRequest, verdict: Verdict): Transaction {
    var purchase := req.purchaseKey != "" && req.productId.Some?;
    Transaction(
      req.merchantId, req.orderRef, req.amount, req.currency, req.cardToken,
      if verdict.Approve? then Authorized else Declined,
      if verdict.Decline? then verdict.reason else "",
      "",
      if purchase then req.purchaseKey else "",
      if purchase then req.productId else None,
      0)
  }

  function MarkCapturePending(tx: Transaction, key: string): Option<Transaction> {
    if tx.status != Authorized then None
    else Some(tx.(status := CapturePending, idempotencyKey := key))
  }

  function MarkVoided(tx: Transaction): Option<Transaction> {
    if tx.status != Authorized then None else Some(tx.(status := Voided))
  }

  /** Reserves a refund on an in-memory copy of the row. */
  function Reserve(tx: Transaction, amount: int): Transaction {
    var total := tx.refundedAmount + amount;
    tx.(refundedAmount := total, status := if total >= tx.amount then Refunded else PartiallyRefunded)
  }

  /** The relative UPDATE that gives a reservation back, evaluated on the current row. */
  function GiveBack(tx: Transaction, amount: int): Transaction {
    var total := tx.refundedAmount - amount;
    tx.(refundedAmount := total, status := if total <= 0 then Captured else PartiallyRefunded)
  }

  /** Two rows that the unique index on (merchant_id, idempotency_key) keeps apart. */
  predicate KeyClash(a: Transaction, b: Transaction) {
    a.idempotencyKey != "" && a.idempotencyKey == b.idempotencyKey && a.merchantId == b.merchantId
  }

  predicate KeyTaken(rows: map<Id, Transaction>, id: Id, tx: Transaction) {
    exists other :: other in rows && other != id && KeyClash(rows[other], tx)
  }

  predicate HasPurchaseKey(tx: Transaction, merchant: string, key: string) {
    key != "" && tx.purchaseKey == key && tx.merchantId == merchant
  }

  /** The unique index on (merchant_id, purchase_idempotency_key). */
  predicate PurchaseKeyUsed(txs: map<Id, Transaction>, merchant: string, key: string) {
    exists id :: id in txs && HasPurchaseKey(txs[id], merchant, key)
  }

  predicate SamePurchaseKey(a: Transaction, b: Transaction) {
    HasPurchaseKey(a, b.merchantId, b.purchaseKey)
  }

  predicate PurchaseKeysUnique(txs: map<Id, Transaction>) {
    forall a, b :: a in txs && b in txs && SamePurchaseKey(txs[a], txs[b]) ==> a == b
  }

  datatype RefundStatus = RefundPending | RefundDone | RefundFailed

  datatype Refund = Refund(transactionId: Id, amount: int, status: RefundStatus, idempotencyKey: string)

  predicate SameRefundKey(a: Refund, b: Refund) {
    a.transactionId == b.transactionId && a.idempotencyKey == b.idempotencyKey
  }

  /** Refused by the primary key or by the unique index on (transaction_id, idempotency_key). */
  predicate RefundTaken(refunds: map<Id, Refund>, rid: Id, r: Refund) {
    || rid in refunds
    || (r.idempotencyKey != "" && (exists other :: other in refunds && SameRefundKey(refunds[other], r)))
  }

  /** Balance and status tell the same story. */
  predicate Consistent(tx: Transaction) {
    && 1 <= tx.amount
    && 0 <= tx.refundedAmount <= tx.amount
    && (tx.status == PartiallyRefunded <==> 0 < tx.refundedAmount < tx.amount)
    && (tx.status == Refunded <==> tx.refundedAmount == tx.amount)
  }
}
