/** The provider's ledger with every operation done atomically: the reference the
    interleaved ledger is compared with. Rows, refunds, and the background goroutines
    that settle captures and refunds with the bank. */
module Book {
  import opened Base
  import opened Transactions

  /** Where a background goroutine stands. `Ended` also covers a goroutine lost in a crash. */
  datatype Phase = AtBank | Answered(ok: bool) | Releasing(attempt: nat) | Unnotified | Ended

  /** settleAsync: it owns the in-memory copy of the row that Capture changed.
      `answers` lists every reply the bank gave to this goroutine. */
  datatype SettleJob = SettleJob(tx: Transaction, amount: int, phase: Phase, answers: seq<bool>)

  /** refundAsync; `released` records that the reservation was given back. */
  datatype RefundJob = RefundJob(phase: Phase, answers: seq<bool>, released: bool)

  /** The texts a webhook uses for its status and, after "transaction.", for its event name. */
  datatype Label = StatusLabel(s: Status) | RefundPendingLabel | RefundFailedLabel | OtherLabel(text: string)

  datatype Webhook = Webhook(event: Label, transactionId: Id, refundId: Id, status: Label, amount: int)

  datatype Book = Book(
    txs: map<Id, Transaction>,
    refunds: map<Id, Refund>,
    settles: map<Id, SettleJob>,
    jobs: map<Id, RefundJob>,
    voidNotices: map<Id, Transaction>,
    sent: set<Webhook>)

  const EMPTY := Book(map[], map[], map[], map[], map[], {})

  datatype Op =
    | Authorize(id: Id, req: AuthRequest, verdict: Verdict)
    | Capture(id: Id, key: string, captured: int)
    | Void(id: Id, bankOk: bool)
    | RefundOp(id: Id, rid: Id, amount: int, key: string)
    | VoidNotify(id: Id)
    | SettleDoes(id: Id, settleStep: SettleStep)
    | RefundDoes(rid: Id, refundStep: RefundStep)

  /** The steps of a settle goroutine. */
  datatype SettleStep = SettleBank(ok: bool) | SettleWrite | SettleNotify | SettleLost

  /** The steps of a refund goroutine. */
  datatype RefundStep = RefundBank(ok: bool) | RefundWrite | Release | ReleaseFails | RefundNotify | RefundLost

  datatype Reply =
    | Accepted
    | BadRequest
    | NotFound
    | InvalidTransition
    | DuplicateIdempotency
    | PurchaseConflict
    | NotRefundable
    | ExceedsAmount
    | BankRefused
    | NotEnabled

  datatype Outcome = Outcome(reply: Reply, book: Book)

  const MAX_RELEASE_ATTEMPTS := 3

  /** The webhook sender reports whatever status the in-memory copy carries. */
  function CaptureWebhook(id: Id, tx: Transaction): Webhook {
    Webhook(StatusLabel(tx.status), id, "", StatusLabel(tx.status), tx.amount)
  }

  function RefundLabel(s: RefundStatus): Label {
    match s
    case RefundPending => RefundPendingLabel
    case RefundDone => StatusLabel(Refunded)
    case RefundFailed => RefundFailedLabel
  }

  function RefundWebhook(rid: Id, r: Refund): Webhook {
    var event := if r.status == RefundFailed then RefundFailedLabel else StatusLabel(Refunded);
    Webhook(event, r.transactionId, rid, RefundLabel(r.status), r.amount)
  }

  function DoAuthorize(b: Book, id: Id, req: AuthRequest, verdict: Verdict): Outcome {
    if req.amount < 1 then Outcome(BadRequest, b)
    else
      var row := NewTransaction(req, verdict);
      if id in b.txs then Outcome(DuplicateIdempotency, b)
      else if PurchaseKeyUsed(b.txs, row.merchantId, row.purchaseKey) then Outcome(PurchaseConflict, b)
      else Outcome(Accepted, b.(txs := b.txs[id := row]))
  }

  function DoCapture(b: Book, id: Id, key: string, amount: int): Outcome {
    if id !in b.txs then Outcome(NotFound, b)
    else match MarkCapturePending(b.txs[id], key)
      case None => Outcome(InvalidTransition, b)
      case Some(tx) =>
        if KeyTaken(b.txs, id, tx) then Outcome(DuplicateIdempotency, b)
        else Outcome(Accepted, b.(
          txs := b.txs[id := tx],
          settles := b.settles[id := SettleJob(tx, amount, AtBank, [])]))
  }

  function DoVoid(b: Book, id: Id, bankOk: bool): Outcome {
    if id !in b.txs then Outcome(NotFound, b)
    else match MarkVoided(b.txs[id])
      case None => Outcome(InvalidTransition, b)
      case Some(tx) =>
        if !bankOk then Outcome(BankRefused, b)
        else Outcome(Accepted, b.(txs := b.txs[id := tx], voidNotices := b.voidNotices[id := tx]))
  }

  /** Refund validation, in the order the service checks. */
  function RefundVerdict(tx: Transaction, amount: int): Reply {
    if tx.status != Captured && tx.status != PartiallyRefunded then NotRefundable
    else if amount > tx.amount - tx.refundedAmount then ExceedsAmount
    else Accepted
  }

  function DoRefund(b: Book, id: Id, rid: Id, amount: int, key: string): Outcome {
    if amount < 1 then Outcome(BadRequest, b)
    else if id !in b.txs then Outcome(NotFound, b)
    else if !RefundVerdict(b.txs[id], amount).Accepted? then Outcome(RefundVerdict(b.txs[id], amount), b)
    else
      var refund := Refund(id, amount, RefundPending, key);
      if RefundTaken(b.refunds, rid, refund) then Outcome(DuplicateIdempotency, b)
      else Outcome(Accepted, b.(
        txs := b.txs[id := Reserve(b.txs[id], amount)],
        refunds := b.refunds[rid := refund],
        jobs := b.jobs[rid := RefundJob(AtBank, [], false)]))
  }

  function SettlePhase(b: Book, id: Id): Phase {
    if id in b.settles then b.settles[id].phase else Ended
  }

  function SetSettle(b: Book, id: Id, phase: Phase): Book
    requires id in b.settles
  {
    b.(settles := b.settles[id := b.settles[id].(phase := phase)])
  }

  function DoSettleBank(b: Book, id: Id, ok: bool): Outcome {
    if SettlePhase(b, id) != AtBank then Outcome(NotEnabled, b)
    else
      var job := b.settles[id].(phase := Answered(ok), answers := b.settles[id].answers + [ok]);
      Outcome(Accepted, b.(settles := b.settles[id := job]))
  }

  /** The compare-and-set finds the status the capture left behind. */
  predicate SettleHits(b: Book, id: Id) {
    id in b.txs && b.txs[id].status == CapturePending
  }

  function DoSettleWrite(b: Book, id: Id): Outcome {
    if !SettlePhase(b, id).Answered? then Outcome(NotEnabled, b)
    else if !SettleHits(b, id) then Outcome(NotFound, SetSettle(b, id, Ended))
    else
      var next := if SettlePhase(b, id).ok then Captured else CaptureFailed;
      Outcome(Accepted, SetSettle(b, id, Unnotified).(txs := b.txs[id := b.txs[id].(status := next)]))
  }

  function DoSettleNotify(b: Book, id: Id): Outcome {
    if SettlePhase(b, id) != Unnotified then Outcome(NotEnabled, b)
    else Outcome(Accepted, SetSettle(b, id, Ended).(sent := b.sent + {CaptureWebhook(id, b.settles[id].tx)}))
  }

  function DoSettleLost(b: Book, id: Id): Outcome {
    if id !in b.settles then Outcome(NotEnabled, b) else Outcome(Accepted, SetSettle(b, id, Ended))
  }

  function DoSettle(b: Book, id: Id, step: SettleStep): Outcome {
    match step
    case SettleBank(ok) => DoSettleBank(b, id, ok)
    case SettleWrite => DoSettleWrite(b, id)
    case SettleNotify => DoSettleNotify(b, id)
    case SettleLost => DoSettleLost(b, id)
  }

  function JobPhase(b: Book, rid: Id): Phase {
    if rid in b.jobs && rid in b.refunds then b.jobs[rid].phase else Ended
  }

  function SetJob(b: Book, rid: Id, phase: Phase): Book
    requires rid in b.jobs
  {
    b.(jobs := b.jobs[rid := b.jobs[rid].(phase := phase)])
  }

  function DoRefundBank(b: Book, rid: Id, ok: bool): Outcome {
    if JobPhase(b, rid) != AtBank then Outcome(NotEnabled, b)
    else
      var job := b.jobs[rid].(phase := Answered(ok), answers := b.jobs[rid].answers + [ok]);
      Outcome(Accepted, b.(jobs := b.jobs[rid := job]))
  }

  function DoRefundWrite(b: Book, rid: Id): Outcome {
    if !JobPhase(b, rid).Answered? then Outcome(NotEnabled, b)
    else
      var ok := JobPhase(b, rid).ok;
      var refund := b.refunds[rid].(status := if ok then RefundDone else RefundFailed);
      Outcome(Accepted, SetJob(b, rid, if ok then Unnotified else Releasing(0)).(refunds := b.refunds[rid := refund]))
  }

  /** The release reaches its row and passes CHECK (refunded_amount >= 0). */
  predicate ReleaseFits(b: Book, rid: Id) {
    && rid in b.refunds && b.refunds[rid].transactionId in b.txs
    && b.txs[b.refunds[rid].transactionId].refundedAmount >= b.refunds[rid].amount
  }

  function DoRelease(b: Book, rid: Id): Outcome {
    if !JobPhase(b, rid).Releasing? then Outcome(NotEnabled, b)
    else if !ReleaseFits(b, rid) then DoReleaseFails(b, rid)
    else
      var id := b.refunds[rid].transactionId;
      Outcome(Accepted, b.(
        txs := b.txs[id := GiveBack(b.txs[id], b.refunds[rid].amount)],
        jobs := b.jobs[rid := b.jobs[rid].(phase := Unnotified, released := true)]))
  }

  function DoReleaseFails(b: Book, rid: Id): Outcome {
    if !JobPhase(b, rid).Releasing? then Outcome(NotEnabled, b)
    else
      var next := JobPhase(b, rid).attempt + 1;
      Outcome(NotFound, SetJob(b, rid, if next < MAX_RELEASE_ATTEMPTS then Releasing(next) else Unnotified))
  }

  function DoRefundNotify(b: Book, rid: Id): Outcome {
    if JobPhase(b, rid) != Unnotified then Outcome(NotEnabled, b)
    else Outcome(Accepted, SetJob(b, rid, Ended).(sent := b.sent + {RefundWebhook(rid, b.refunds[rid])}))
  }

  function DoRefundLost(b: Book, rid: Id): Outcome {
    if rid !in b.jobs then Outcome(NotEnabled, b) else Outcome(Accepted, SetJob(b, rid, Ended))
  }

  function DoRefundJob(b: Book, rid: Id, step: RefundStep): Outcome {
    match step
    case RefundBank(ok) => DoRefundBank(b, rid, ok)
    case RefundWrite => DoRefundWrite(b, rid)
    case Release => DoRelease(b, rid)
    case ReleaseFails => DoReleaseFails(b, rid)
    case RefundNotify => DoRefundNotify(b, rid)
    case RefundLost => DoRefundLost(b, rid)
  }

  function DoVoidNotify(b: Book, id: Id): Outcome {
    if id !in b.voidNotices then Outcome(NotEnabled, b)
    else Outcome(Accepted, b.(
      voidNotices := b.voidNotices - {id},
      sent := b.sent + {CaptureWebhook(id, b.voidNotices[id])}))
  }

  /** One operation, start to end, with nothing in between. */
  function Do(b: Book, op: Op): Outcome {
    match op
    case Authorize(id, req, verdict) => DoAuthorize(b, id, req, verdict)
    case Capture(id, key, amount) => DoCapture(b, id, key, amount)
    case Void(id, ok) => DoVoid(b, id, ok)
    case RefundOp(id, rid, amount, key) => DoRefund(b, id, rid, amount, key)
    case VoidNotify(id) => DoVoidNotify(b, id)
    case SettleDoes(id, step) => DoSettle(b, id, step)
    case RefundDoes(rid, step) => DoRefundJob(b, rid, step)
  }

  /** One operation of a history, with the reply its caller got. */
  datatype Entry = Entry(op: Op, reply: Reply)

  /** The ledger a history leaves when its operations are done one after the other. */
  function After(h: seq<Entry>): Book {
    if h == [] then EMPTY else Do(After(h[..|h| - 1]), h[|h| - 1].op).book
  }

  /** Done one after the other, the operations give exactly the recorded replies. */
  predicate Honest(h: seq<Entry>) {
    forall i :: 0 <= i < |h| ==> Do(After(h[..i]), h[i].op).reply == h[i].reply
  }
}
