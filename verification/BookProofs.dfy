/** What every sequential run of the ledger keeps. */
module BookProofs {
  import opened Base
  import opened Transactions
  import opened Book

  /** Reservations of one transaction that have not been given back. */
  ghost function Held(refunds: map<Id, Refund>, jobs: map<Id, RefundJob>, id: Id): map<Id, int> {
    map rid | rid in refunds && refunds[rid].transactionId == id && rid in jobs && !jobs[rid].released
      :: refunds[rid].amount
  }

  /** Conservation: the balance is the sum of the reservations still held. */
  ghost predicate Money(b: Book) {
    forall id :: id in b.txs ==> b.txs[id].refundedAmount == Total(Held(b.refunds, b.jobs, id))
  }

  predicate BeforeCapture(s: Status) {
    s == Authorized || s == Declined || s == Voided
  }

  /** A row together with its settle goroutine, if a capture has started one. */
  predicate RowOk(tx: Transaction, job: Option<SettleJob>) {
    && Consistent(tx)
    && (job.None? <==> BeforeCapture(tx.status))
    && (job.Some? ==>
          var j := job.value;
          && j.tx.status == CapturePending
          && |j.answers| <= 1
          && (j.phase.AtBank? ==> j.answers == [] && tx.status == CapturePending)
          && (j.phase.Answered? ==> j.answers == [j.phase.ok] && tx.status == CapturePending)
          && (tx.status == Captured || tx.status == PartiallyRefunded || tx.status == Refunded ==> j.answers == [true])
          && (tx.status == CaptureFailed ==> j.answers == [false]))
  }

  function JobOf(b: Book, id: Id): Option<SettleJob> {
    if id in b.settles then Some(b.settles[id]) else None
  }

  predicate Rows(b: Book) {
    && b.settles.Keys <= b.txs.Keys
    && forall id :: id in b.txs ==> RowOk(b.txs[id], JobOf(b, id))
  }

  /** A refund row together with its goroutine. */
  predicate RefundOk(r: Refund, j: RefundJob) {
    && r.amount >= 1
    && |j.answers| <= 1
    && (j.phase.AtBank? ==> j.answers == [] && r.status == RefundPending)
    && (j.phase.Answered? ==> j.answers == [j.phase.ok] && r.status == RefundPending)
    && (j.phase.Releasing? ==> r.status == RefundFailed && !j.released && j.phase.attempt < MAX_RELEASE_ATTEMPTS)
    && (j.phase.Unnotified? ==> r.status != RefundPending)
    && (r.status == RefundDone ==> j.answers == [true])
    && (r.status == RefundFailed ==> j.answers == [false])
    && (j.released ==> r.status == RefundFailed)
  }

  predicate Refunds(b: Book) {
    && b.jobs.Keys == b.refunds.Keys
    && forall rid :: rid in b.refunds ==> b.refunds[rid].transactionId in b.txs && RefundOk(b.refunds[rid], b.jobs[rid])
  }

  predicate UniqueKeys(txs: map<Id, Transaction>) {
    forall a, b :: a in txs && b in txs && a != b ==> !KeyClash(txs[a], txs[b])
  }

  /** What a webhook on the wire tells about the ledger. */
  predicate Truthful(b: Book, w: Webhook) {
    match w.event
    case StatusLabel(s) =>
      && w.status == w.event
      && (s == Refunded ==>
            && w.refundId in b.refunds && b.refunds[w.refundId].status == RefundDone
            && w.transactionId == b.refunds[w.refundId].transactionId && w.amount == b.refunds[w.refundId].amount)
      && (s != Refunded ==> s == CapturePending || s == Voided)
      && (s == Voided ==> w.transactionId in b.txs && b.txs[w.transactionId].status == Voided)
    case RefundFailedLabel => w.status == RefundFailedLabel
    case _ => false
  }

  /** Pending void notices speak of voided rows. */
  predicate Notices(b: Book) {
    forall id :: id in b.voidNotices ==>
      id in b.txs && b.txs[id].status == Voided && b.voidNotices[id].status == Voided
  }

  predicate Wire(b: Book) {
    forall w :: w in b.sent ==> Truthful(b, w)
  }

  /** Everything but the sums. */
  predicate Sound(b: Book) {
    Rows(b) && Refunds(b) && UniqueKeys(b.txs) && Notices(b) && Wire(b)
  }

  ghost predicate Inv(b: Book) {
    Money(b) && Sound(b)
  }

  predicate IsClient(op: Op) {
    !op.SettleDoes? && !op.RefundDoes?
  }

  /** One committed change of one row: along the declared life cycle, or along a release edge. */
  predicate Evolves(tx: Transaction, tx': Transaction) {
    tx' == tx
    || (SamePurchase(tx, tx') && (CanTransitionTo(tx.status, tx'.status) || ReleaseEdge(tx.status, tx'.status)))
  }

  predicate RowsEvolve(b: Book, b': Book) {
    forall id :: id in b.txs ==> id in b'.txs && Evolves(b.txs[id], b'.txs[id])
  }

  /** Refunds the bank has paid never change again. */
  predicate PaidForGood(b: Book, b': Book) {
    forall rid :: rid in b.refunds && b.refunds[rid].status == RefundDone ==>
      rid in b'.refunds && b'.refunds[rid] == b.refunds[rid]
  }

  // Operations that write a row: it stays sound and takes one step of its life cycle.

  lemma RowsAfter(b: Book, b': Book, id: Id)
    requires Rows(b)
    requires b'.txs.Keys == b.txs.Keys + {id} && b'.settles.Keys <= b'.txs.Keys
    requires forall k :: k in b.txs && k != id ==> b'.txs[k] == b.txs[k] && JobOf(b', k) == JobOf(b, k)
    requires RowOk(b'.txs[id], JobOf(b', id))
    requires id in b.txs ==> Evolves(b.txs[id], b'.txs[id])
    ensures Rows(b') && RowsEvolve(b, b')
  {}

  lemma RowsFrame(b: Book, b': Book)
    requires Rows(b) && b'.txs == b.txs && b'.settles == b.settles
    ensures Rows(b') && RowsEvolve(b, b')
  {}

  lemma ReserveOk(tx: Transaction, job: Option<SettleJob>, amount: int)
    requires RowOk(tx, job) && amount >= 1 && RefundVerdict(tx, amount).Accepted?
    ensures RowOk(Reserve(tx, amount), job) && Evolves(tx, Reserve(tx, amount))
  {}

  lemma GiveBackOk(tx: Transaction, job: Option<SettleJob>, amount: int)
    requires RowOk(tx, job) && 1 <= amount <= tx.refundedAmount
    ensures RowOk(GiveBack(tx, amount), job) && Evolves(tx, GiveBack(tx, amount))
  {}

  lemma AuthorizeRows(b: Book, id: Id, req: AuthRequest, verdict: Verdict)
    requires Rows(b)
    ensures var b' := DoAuthorize(b, id, req, verdict).book; Rows(b') && RowsEvolve(b, b')
  {
    if DoAuthorize(b, id, req, verdict).reply.Accepted? { RowsAfter(b, DoAuthorize(b, id, req, verdict).book, id); }
  }

  lemma CaptureOk(tx: Transaction, tx': Transaction, amount: int)
    requires Consistent(tx) && tx.status == Authorized
    requires tx' == tx.(status := CapturePending, idempotencyKey := tx'.idempotencyKey)
    ensures RowOk(tx', Some(SettleJob(tx', amount, AtBank, []))) && Evolves(tx, tx')
  {}

  /** Row `id` becomes `tx`, with this goroutine. */
  lemma RowWritten(b: Book, b': Book, id: Id, tx: Transaction, job: Option<SettleJob>)
    requires Rows(b) && b'.txs == b.txs[id := tx] && RowOk(tx, job) && (id in b.txs ==> Evolves(b.txs[id], tx))
    requires if job.Some? then b'.settles == b.settles[id := job.value] else b'.settles == b.settles && id !in b.settles
    ensures Rows(b') && RowsEvolve(b, b')
  {
    RowsAfter(b, b', id);
  }

  /** Row `id` becomes `tx`, and its goroutine goes on as before. */
  lemma RowRewritten(b: Book, b': Book, id: Id, tx: Transaction)
    requires Rows(b) && id in b.txs && b'.txs == b.txs[id := tx] && b'.settles == b.settles
    requires RowOk(tx, JobOf(b, id)) && Evolves(b.txs[id], tx)
    ensures Rows(b') && RowsEvolve(b, b')
  {
    RowsAfter(b, b', id);
  }

  lemma CaptureRows(b: Book, id: Id, key: string, amount: int)
    requires Rows(b)
    ensures var b' := DoCapture(b, id, key, amount).book; Rows(b') && RowsEvolve(b, b')
  {
    if DoCapture(b, id, key, amount).reply.Accepted? {
      var tx := b.txs[id].(status := CapturePending, idempotencyKey := key);
      assert RowOk(b.txs[id], JobOf(b, id));
      CaptureOk(b.txs[id], tx, amount);
      RowWritten(b, DoCapture(b, id, key, amount).book, id, tx, Some(SettleJob(tx, amount, AtBank, [])));
    }
  }

  lemma VoidRows(b: Book, id: Id, ok: bool)
    requires Rows(b)
    ensures var b' := DoVoid(b, id, ok).book; Rows(b') && RowsEvolve(b, b')
  {
    if DoVoid(b, id, ok).reply.Accepted? { RowsAfter(b, DoVoid(b, id, ok).book, id); }
  }

  lemma RefundRows(b: Book, id: Id, rid: Id, amount: int, key: string)
    requires Rows(b)
    ensures var b' := DoRefund(b, id, rid, amount, key).book; Rows(b') && RowsEvolve(b, b')
  {
    if DoRefund(b, id, rid, amount, key).reply.Accepted? {
      ReserveOk(b.txs[id], JobOf(b, id), amount);
      RowsAfter(b, DoRefund(b, id, rid, amount, key).book, id);
    }
  }

  lemma SettleWriteRows(b: Book, id: Id)
    requires Rows(b)
    ensures var b' := DoSettleWrite(b, id).book; Rows(b') && RowsEvolve(b, b')
  {
    if SettlePhase(b, id).Answered? {
      var b' := DoSettleWrite(b, id).book;
      SettledRowOk(b, id);
      RowsAfter(b, b', id);
    }
  }

  lemma SettledRowOk(b: Book, id: Id)
    requires id in b.settles && id in b.txs && b.settles[id].phase.Answered? && RowOk(b.txs[id], JobOf(b, id))
    ensures var b' := DoSettleWrite(b, id).book;
      id in b'.txs && RowOk(b'.txs[id], JobOf(b', id)) && Evolves(b.txs[id], b'.txs[id])
  {}

  lemma ReleaseRows(b: Book, rid: Id)
    requires Rows(b) && Refunds(b)
    ensures var b' := DoRelease(b, rid).book; Rows(b') && RowsEvolve(b, b')
  {
    if DoRelease(b, rid).reply.Accepted? {
      var id := b.refunds[rid].transactionId;
      assert RefundOk(b.refunds[rid], b.jobs[rid]);
      GiveBackOk(b.txs[id], JobOf(b, id), b.refunds[rid].amount);
      RowRewritten(b, DoRelease(b, rid).book, id, GiveBack(b.txs[id], b.refunds[rid].amount));
    }
  }

  lemma SettleStepRows(b: Book, id: Id, step: SettleStep)
    requires Rows(b) && !step.SettleWrite?
    ensures var b' := DoSettle(b, id, step).book; Rows(b') && RowsEvolve(b, b')
  {
    if id in b.settles {
      var b' := DoSettle(b, id, step).book;
      GoroutineMovesOn(b, id, step);
      JobMovesOn(b, b', id, b'.settles[id]);
    }
  }

  /** A settle goroutine that does not write only moves itself on. */
  lemma GoroutineMovesOn(b: Book, id: Id, step: SettleStep)
    requires Rows(b) && id in b.settles && !step.SettleWrite?
    ensures var b' := DoSettle(b, id, step).book;
      && id in b'.settles && b'.txs == b.txs && b'.settles == b.settles[id := b'.settles[id]]
      && RowOk(b.txs[id], Some(b'.settles[id]))
  {
    assert RowOk(b.txs[id], Some(b.settles[id]));
  }

  lemma JobMovesOn(b: Book, b': Book, id: Id, job: SettleJob)
    requires Rows(b) && id in b.settles && b'.txs == b.txs && b'.settles == b.settles[id := job]
    requires RowOk(b.txs[id], Some(job))
    ensures Rows(b') && RowsEvolve(b, b')
  {}

  lemma RefundingLeavesRows(b: Book, rid: Id, step: RefundStep)
    requires Rows(b) && !step.Release?
    ensures var b' := DoRefundJob(b, rid, step).book; Rows(b') && RowsEvolve(b, b')
  {
    RefundingMovesNoMoney(b, rid, step);
    RowsFrame(b, DoRefundJob(b, rid, step).book);
  }

  lemma {:induction false} StepRows(b: Book, op: Op)
    requires Rows(b) && Refunds(b)
    ensures var b' := Do(b, op).book; Rows(b') && RowsEvolve(b, b')
  {
    match op
    case Authorize(id, req, verdict) => AuthorizeRows(b, id, req, verdict);
    case Capture(id, key, amount) => CaptureRows(b, id, key, amount);
    case Void(id, ok) => VoidRows(b, id, ok);
    case RefundOp(id, rid, amount, key) => RefundRows(b, id, rid, amount, key);
    case VoidNotify(_) => RowsFrame(b, Do(b, op).book);
    case SettleDoes(id, step) => if step.SettleWrite? { SettleWriteRows(b, id); } else { SettleStepRows(b, id, step); }
    case RefundDoes(rid, step) =>
      if step.Release? { ReleaseRows(b, rid); } else { RefundingLeavesRows(b, rid, step); }
  }

  // Pending void notices.

  lemma NoticesStay(b: Book, b': Book)
    requires Notices(b) && RowsEvolve(b, b') && b'.voidNotices == b.voidNotices
    ensures Notices(b')
  {}

  lemma GoroutinesLeaveNotices(b: Book, id: Id, step: SettleStep, rid: Id, rstep: RefundStep)
    ensures DoSettle(b, id, step).book.voidNotices == b.voidNotices
    ensures DoRefundJob(b, rid, rstep).book.voidNotices == b.voidNotices
  {}

  lemma {:induction false} ClientNotices(b: Book, op: Op)
    requires Notices(b) && IsClient(op) && RowsEvolve(b, Do(b, op).book)
    ensures Notices(Do(b, op).book)
  {
    if !op.Void? && !op.VoidNotify? { NoticesStay(b, Do(b, op).book); }
  }

  lemma {:induction false} StepNotices(b: Book, op: Op)
    requires Notices(b) && RowsEvolve(b, Do(b, op).book)
    ensures Notices(Do(b, op).book)
  {
    match op
    case SettleDoes(id, step) => GoroutinesLeaveNotices(b, id, step, "", Release); NoticesStay(b, Do(b, op).book);
    case RefundDoes(rid, step) => GoroutinesLeaveNotices(b, "", SettleLost, rid, step); NoticesStay(b, Do(b, op).book);
    case _ => ClientNotices(b, op);
  }

  // Requests from clients.

  lemma {:induction false} ClientKeepsRefunds(b: Book, op: Op)
    requires Refunds(b) && IsClient(op)
    ensures Refunds(Do(b, op).book)
  {
    match op
    case Authorize(_, _, _) =>
    case Capture(_, _, _) =>
    case Void(_, _) =>
    case RefundOp(_, _, _, _) =>
    case VoidNotify(_) =>
  }

  lemma {:induction false} ClientKeepsUniqueKeys(b: Book, op: Op)
    requires UniqueKeys(b.txs) && IsClient(op)
    ensures UniqueKeys(Do(b, op).book.txs)
  {
    match op
    case Authorize(_, _, _) =>
    case Capture(_, _, _) =>
    case Void(_, _) =>
    case RefundOp(_, _, _, _) =>
    case VoidNotify(_) =>
  }

  lemma {:induction false} ClientPaidForGood(b: Book, op: Op)
    requires Refunds(b) && IsClient(op)
    ensures PaidForGood(b, Do(b, op).book)
  {
    match op
    case Authorize(_, _, _) =>
    case Capture(_, _, _) =>
    case Void(_, _) =>
    case RefundOp(_, _, _, _) =>
    case VoidNotify(_) =>
  }

  // Steps of a settle goroutine.

  lemma {:induction false} SettleKeepsRefunds(b: Book, id: Id, step: SettleStep)
    requires Refunds(b)
    ensures Refunds(DoSettle(b, id, step).book)
  {
    match step
    case SettleBank(_) =>
    case SettleWrite =>
    case SettleNotify =>
    case SettleLost =>
  }

  lemma {:induction false} SettleKeepsUniqueKeys(b: Book, id: Id, step: SettleStep)
    requires UniqueKeys(b.txs)
    ensures UniqueKeys(DoSettle(b, id, step).book.txs)
  {
    match step
    case SettleBank(_) =>
    case SettleWrite =>
    case SettleNotify =>
    case SettleLost =>
  }

  lemma {:induction false} SettlePaidForGood(b: Book, id: Id, step: SettleStep)
    requires Refunds(b)
    ensures PaidForGood(b, DoSettle(b, id, step).book)
  {
    match step
    case SettleBank(_) =>
    case SettleWrite =>
    case SettleNotify =>
    case SettleLost =>
  }

  // Steps of a refund goroutine.

  lemma RefundAnswerKeepsRefunds(b: Book, rid: Id, ok: bool)
    requires Refunds(b)
    ensures Refunds(DoRefundBank(b, rid, ok).book) && Refunds(DoRefundWrite(b, rid).book)
  {}

  lemma {:induction false} RefundingKeepsRefunds(b: Book, rid: Id, step: RefundStep)
    requires Refunds(b)
    ensures Refunds(DoRefundJob(b, rid, step).book)
  {
    match step
    case RefundBank(ok) => RefundAnswerKeepsRefunds(b, rid, ok);
    case RefundWrite => RefundAnswerKeepsRefunds(b, rid, true);
    case _ =>
  }

  lemma {:induction false} RefundingKeepsUniqueKeys(b: Book, rid: Id, step: RefundStep)
    requires UniqueKeys(b.txs)
    ensures UniqueKeys(DoRefundJob(b, rid, step).book.txs)
  {
    match step
    case RefundBank(_) =>
    case RefundWrite =>
    case Release =>
    case ReleaseFails =>
    case RefundNotify =>
    case RefundLost =>
  }

  lemma {:induction false} RefundingPaidForGood(b: Book, rid: Id, step: RefundStep)
    requires Refunds(b)
    ensures PaidForGood(b, DoRefundJob(b, rid, step).book)
  {
    match step
    case RefundBank(_) =>
    case RefundWrite =>
    case Release =>
    case ReleaseFails =>
    case RefundNotify =>
    case RefundLost =>
  }

  // The sums: only a reservation and a release change a balance, each by exactly its refund.

  lemma AuthorizeKeepsMoney(b: Book, id: Id, req: AuthRequest, verdict: Verdict)
    requires Money(b) && Refunds(b)
    ensures Money(DoAuthorize(b, id, req, verdict).book)
  {
    if id !in b.txs {
      assert Held(b.refunds, b.jobs, id) == map[];
    }
  }

  lemma {:induction false} ReserveAddsToHeld(b: Book, id: Id, rid: Id, amount: int, key: string)
    requires Refunds(b) && DoRefund(b, id, rid, amount, key).reply.Accepted?
    ensures var b' := DoRefund(b, id, rid, amount, key).book;
      && (forall other :: other != id ==> Held(b'.refunds, b'.jobs, other) == Held(b.refunds, b.jobs, other))
      && rid !in Held(b.refunds, b.jobs, id)
      && Held(b'.refunds, b'.jobs, id) == Held(b.refunds, b.jobs, id)[rid := amount]
  {}

  lemma {:induction false} ReleaseTakesFromHeld(b: Book, rid: Id)
    requires Refunds(b) && DoRelease(b, rid).reply.Accepted?
    ensures var b' := DoRelease(b, rid).book; var id := b.refunds[rid].transactionId;
      && (forall other :: other != id ==> Held(b'.refunds, b'.jobs, other) == Held(b.refunds, b.jobs, other))
      && rid in Held(b.refunds, b.jobs, id) && Held(b.refunds, b.jobs, id)[rid] == b.refunds[rid].amount
      && Held(b'.refunds, b'.jobs, id) == Held(b.refunds, b.jobs, id) - {rid}
  {}

  /** The same refunds, for the same amounts, held or given back as before. */
  predicate SameReservations(b: Book, b': Book) {
    && b'.refunds.Keys == b.refunds.Keys
    && b'.jobs.Keys == b.jobs.Keys
    && (forall rid :: rid in b.refunds ==>
          b'.refunds[rid].transactionId == b.refunds[rid].transactionId
          && b'.refunds[rid].amount == b.refunds[rid].amount)
    && (forall rid :: rid in b.jobs ==> b'.jobs[rid].released == b.jobs[rid].released)
  }

  lemma MoneyFrame(b: Book, b': Book)
    requires Money(b) && b'.txs == b.txs && SameReservations(b, b')
    ensures Money(b')
  {
    forall id | id in b.txs ensures Held(b'.refunds, b'.jobs, id) == Held(b.refunds, b.jobs, id) {}
  }

  lemma RefundKeepsMoney(b: Book, id: Id, rid: Id, amount: int, key: string)
    requires Money(b) && Refunds(b)
    ensures Money(DoRefund(b, id, rid, amount, key).book)
  {
    if DoRefund(b, id, rid, amount, key).reply.Accepted? {
      ReserveAddsToHeld(b, id, rid, amount, key);
      TotalAdd(Held(b.refunds, b.jobs, id), rid, amount);
    }
  }

  lemma ReleaseKeepsMoney(b: Book, rid: Id)
    requires Money(b) && Refunds(b) && DoRelease(b, rid).reply.Accepted?
    ensures Money(DoRelease(b, rid).book)
  {
    ReleaseTakesFromHeld(b, rid);
    TotalSplit(Held(b.refunds, b.jobs, b.refunds[rid].transactionId), rid);
  }

  lemma {:induction false} ClientKeepsMoney(b: Book, op: Op)
    requires Money(b) && Refunds(b) && IsClient(op)
    ensures Money(Do(b, op).book)
  {
    match op
    case Authorize(id, req, verdict) => AuthorizeKeepsMoney(b, id, req, verdict);
    case RefundOp(id, rid, amount, key) => RefundKeepsMoney(b, id, rid, amount, key);
    case _ =>
  }

  lemma SettleKeepsMoney(b: Book, id: Id, step: SettleStep)
    requires Money(b)
    ensures Money(DoSettle(b, id, step).book)
  {}

  lemma RefundingMovesNoMoney(b: Book, rid: Id, step: RefundStep)
    requires step == Release ==> !DoRelease(b, rid).reply.Accepted?
    ensures var b' := DoRefundJob(b, rid, step).book;
      b'.txs == b.txs && b'.settles == b.settles && SameReservations(b, b')
  {
    match step
    case RefundBank(ok) => BankMovesNoMoney(b, rid, ok);
    case RefundWrite => WriteMovesNoMoney(b, rid);
    case Release =>
    case ReleaseFails =>
    case RefundNotify =>
    case RefundLost =>
  }

  lemma BankMovesNoMoney(b: Book, rid: Id, ok: bool)
    ensures var b' := DoRefundBank(b, rid, ok).book;
      b'.txs == b.txs && b'.settles == b.settles && SameReservations(b, b')
  {}

  lemma WriteMovesNoMoney(b: Book, rid: Id)
    ensures var b' := DoRefundWrite(b, rid).book; b'.txs == b.txs && b'.settles == b.settles && SameReservations(b, b')
  {}

  lemma {:induction false} RefundingKeepsMoney(b: Book, rid: Id, step: RefundStep)
    requires Money(b) && Refunds(b)
    ensures Money(DoRefundJob(b, rid, step).book)
  {
    if step == Release && DoRelease(b, rid).reply.Accepted? {
      ReleaseKeepsMoney(b, rid);
    } else {
      RefundingMovesNoMoney(b, rid, step);
      MoneyFrame(b, DoRefundJob(b, rid, step).book);
    }
  }

  // The whole invariant.

  lemma {:induction false} StepPaidForGood(b: Book, op: Op)
    requires Refunds(b)
    ensures PaidForGood(b, Do(b, op).book)
  {
    match op
    case SettleDoes(id, step) => SettlePaidForGood(b, id, step);
    case RefundDoes(rid, step) => RefundingPaidForGood(b, rid, step);
    case _ => ClientPaidForGood(b, op);
  }

  /** Each step puts at most one webhook on the wire, and it is truthful. */
  lemma {:induction false} ClientWire(b: Book, op: Op)
    requires Notices(b) && Rows(b) && IsClient(op)
    ensures var b' := Do(b, op).book;
      b'.sent == b.sent || (exists w :: b'.sent == b.sent + {w} && Truthful(b', w))
  {
    if op.VoidNotify? && op.id in b.voidNotices {
      assert Truthful(Do(b, op).book, CaptureWebhook(op.id, b.voidNotices[op.id]));
    }
  }

  lemma SettleWire(b: Book, id: Id, step: SettleStep)
    requires Rows(b)
    ensures var b' := DoSettle(b, id, step).book;
      b'.sent == b.sent || (exists w :: b'.sent == b.sent + {w} && Truthful(b', w))
  {
    if step == SettleNotify && id in b.settles {
      assert Truthful(DoSettle(b, id, step).book, CaptureWebhook(id, b.settles[id].tx));
    }
  }

  lemma RefundingWire(b: Book, rid: Id, step: RefundStep)
    requires Refunds(b)
    ensures var b' := DoRefundJob(b, rid, step).book;
      b'.sent == b.sent || (exists w :: b'.sent == b.sent + {w} && Truthful(b', w))
  {
    if step == RefundNotify && JobPhase(b, rid) == Unnotified {
      assert Truthful(DoRefundJob(b, rid, step).book, RefundWebhook(rid, b.refunds[rid]));
    }
  }

  lemma {:induction false} KeepsWire(b: Book, op: Op)
    requires Sound(b)
    ensures Wire(Do(b, op).book)
  {
    var b' := Do(b, op).book;
    StepRows(b, op);
    StepPaidForGood(b, op);
    match op {
      case SettleDoes(id, step) => SettleWire(b, id, step);
      case RefundDoes(rid, step) => RefundingWire(b, rid, step);
      case _ => ClientWire(b, op);
    }
    WireGrows(b, b');
  }

  lemma WireGrows(b: Book, b': Book)
    requires Wire(b) && RowsEvolve(b, b') && PaidForGood(b, b')
    requires b'.sent == b.sent || (exists w :: b'.sent == b.sent + {w} && Truthful(b', w))
    ensures Wire(b')
  {
    forall w | w in b.sent ensures Truthful(b', w) {}
  }

  /** Every operation keeps the whole invariant. */
  lemma {:induction false} StepKeepsInv(b: Book, op: Op)
    requires Inv(b)
    ensures Inv(Do(b, op).book)
  {
    KeepsWire(b, op);
    StepRows(b, op);
    StepNotices(b, op);
    match op
    case SettleDoes(id, step) =>
      SettleKeepsRefunds(b, id, step); SettleKeepsUniqueKeys(b, id, step); SettleKeepsMoney(b, id, step);
    case RefundDoes(rid, step) =>
      RefundingKeepsRefunds(b, rid, step); RefundingKeepsUniqueKeys(b, rid, step); RefundingKeepsMoney(b, rid, step);
    case _ =>
      ClientKeepsRefunds(b, op); ClientKeepsUniqueKeys(b, op); ClientKeepsMoney(b, op);
  }
}
