/** What every call does to the rows it touches, field by field, and that nothing keeps it from doing so. */
module LedgerCalls {
  import opened Base
  import opened Transactions
  import opened Book
  import opened RowStore
  import opened Ledger
  import opened BookProofs
  import opened LedgerProofs
  import opened LedgerTheorems
  import opened LedgerMoney

  // What an answer means.

  predicate Refuses(b: Book, reply: Reply, b': Book, why: Reply) {
    reply == why && b' == b
  }

  predicate AuthorizeMeans(b: Book, id: Id, req: AuthRequest, verdict: Verdict, reply: Reply, b': Book) {
    var purchase := req.purchaseKey != "" && req.productId.Some?;
    if req.amount < 1 then Refuses(b, reply, b', BadRequest)
    else if id in b.txs then Refuses(b, reply, b', DuplicateIdempotency)
    else if purchase && exists other :: other in b.txs && b.txs[other].merchantId == req.merchantId
                                     && b.txs[other].purchaseKey == req.purchaseKey
    then Refuses(b, reply, b', PurchaseConflict)
    else
      && reply == Accepted && id in b'.txs && b' == b.(txs := b.txs[id := b'.txs[id]])
      && var tx := b'.txs[id];
         && tx.merchantId == req.merchantId && tx.orderRef == req.orderRef && tx.amount == req.amount
         && tx.currency == req.currency && tx.cardToken == req.cardToken && tx.refundedAmount == 0
         && tx.idempotencyKey == "" && tx.status == (if verdict == Approve then Authorized else Declined)
         && tx.declineReason == (if verdict == Approve then "" else verdict.reason)
         && tx.purchaseKey == (if purchase then req.purchaseKey else "")
         && tx.productId == (if purchase then req.productId else None)
  }

  /** Two merchants may use the same capture key; one merchant may not, on two transactions. */
  predicate CaptureMeans(b: Book, id: Id, key: string, captured: int, reply: Reply, b': Book) {
    if id !in b.txs then Refuses(b, reply, b', NotFound)
    else if b.txs[id].status != Authorized then Refuses(b, reply, b', InvalidTransition)
    else if key != "" && exists other :: other in b.txs && other != id && b.txs[other].idempotencyKey == key
                                      && b.txs[other].merchantId == b.txs[id].merchantId
    then Refuses(b, reply, b', DuplicateIdempotency)
    else
      var tx := b.txs[id].(status := CapturePending, idempotencyKey := key);
      && reply == Accepted
      && b' == b.(txs := b.txs[id := tx], settles := b.settles[id := SettleJob(tx, captured, AtBank, [])])
  }

  predicate VoidMeans(b: Book, id: Id, bankOk: bool, reply: Reply, b': Book) {
    if id !in b.txs then Refuses(b, reply, b', NotFound)
    else if b.txs[id].status != Authorized then Refuses(b, reply, b', InvalidTransition)
    else if !bankOk then Refuses(b, reply, b', BankRefused)
    else
      var tx := b.txs[id].(status := Voided);
      reply == Accepted && b' == b.(txs := b.txs[id := tx], voidNotices := b.voidNotices[id := tx])
  }

  /** Any part of what is left may be refunded, from a captured row or after other refunds. */
  predicate RefundMeans(b: Book, id: Id, rid: Id, amount: int, key: string, reply: Reply, b': Book) {
    if amount < 1 then Refuses(b, reply, b', BadRequest)
    else if id !in b.txs then Refuses(b, reply, b', NotFound)
    else
      var tx := b.txs[id];
      var total := tx.refundedAmount + amount;
      if tx.status != Captured && tx.status != PartiallyRefunded then Refuses(b, reply, b', NotRefundable)
      else if total > tx.amount then Refuses(b, reply, b', ExceedsAmount)
      else if rid in b.refunds || (key != "" && RefundKeyUsed(b, id, key))
      then Refuses(b, reply, b', DuplicateIdempotency)
      else
        var status := if total == tx.amount then Refunded else PartiallyRefunded;
        && reply == Accepted
        && b' == b.(txs := b.txs[id := tx.(refundedAmount := total, status := status)],
                    refunds := b.refunds[rid := Refund(id, amount, RefundPending, key)],
                    jobs := b.jobs[rid := RefundJob(AtBank, [], false)])
  }

  predicate RefundKeyUsed(b: Book, id: Id, key: string) {
    exists other :: other in b.refunds && b.refunds[other].transactionId == id && b.refunds[other].idempotencyKey == key
  }

  /** The settle goroutine asks, writes what the bank said, and reports the copy it was started with. */
  predicate SettleMeans(b: Book, id: Id, step: SettleStep, reply: Reply, b': Book) {
    var phase := if id in b.settles then b.settles[id].phase else Ended;
    match step
    case SettleBank(ok) =>
      if phase != AtBank then Refuses(b, reply, b', NotEnabled)
      else
        var job := b.settles[id].(phase := Answered(ok), answers := b.settles[id].answers + [ok]);
        reply == Accepted && b' == b.(settles := b.settles[id := job])
    case SettleWrite =>
      if !phase.Answered? then Refuses(b, reply, b', NotEnabled)
      else
        && reply == Accepted && id in b.txs
        && b' == b.(txs := b.txs[id := b.txs[id].(status := if phase.ok then Captured else CaptureFailed)],
                    settles := b.settles[id := b.settles[id].(phase := Unnotified)])
    case SettleNotify =>
      if phase != Unnotified then Refuses(b, reply, b', NotEnabled)
      else
        var text := StatusLabel(CapturePending);
        && reply == Accepted
        && b' == b.(settles := b.settles[id := b.settles[id].(phase := Ended)],
                    sent := b.sent + {Webhook(text, id, "", text, b.settles[id].tx.amount)})
    case SettleLost =>
      if id !in b.settles then Refuses(b, reply, b', NotEnabled)
      else reply == Accepted && b' == b.(settles := b.settles[id := b.settles[id].(phase := Ended)])
  }

  /** The refund goroutine asks, records what the bank said, gives a refused amount back, and reports. */
  predicate RefundJobMeans(b: Book, rid: Id, step: RefundStep, reply: Reply, b': Book) {
    if rid !in b.refunds || rid !in b.jobs then Refuses(b, reply, b', NotEnabled)
    else
      var job, r := b.jobs[rid], b.refunds[rid];
      match step
      case RefundBank(ok) =>
        if job.phase != AtBank then Refuses(b, reply, b', NotEnabled)
        else
          && reply == Accepted
          && b' == b.(jobs := b.jobs[rid := job.(phase := Answered(ok), answers := job.answers + [ok])])
      case RefundWrite =>
        if !job.phase.Answered? then Refuses(b, reply, b', NotEnabled)
        else
          var paid := job.phase.ok;
          && reply == Accepted
          && b' == b.(refunds := b.refunds[rid := r.(status := if paid then RefundDone else RefundFailed)],
                      jobs := b.jobs[rid := job.(phase := if paid then Unnotified else Releasing(0))])
      case Release =>
        if !job.phase.Releasing? then Refuses(b, reply, b', NotEnabled)
        else
          && reply == Accepted && r.transactionId in b.txs
          && var tx := b.txs[r.transactionId];
             var left := tx.refundedAmount - r.amount;
             var status := if left == 0 then Captured else PartiallyRefunded;
             b' == b.(txs := b.txs[r.transactionId := tx.(refundedAmount := left, status := status)],
                      jobs := b.jobs[rid := job.(phase := Unnotified, released := true)])
      case ReleaseFails =>
        if !job.phase.Releasing? then Refuses(b, reply, b', NotEnabled)
        else
          var next := if job.phase.attempt < 2 then Releasing(job.phase.attempt + 1) else Unnotified;
          reply == NotFound && b' == b.(jobs := b.jobs[rid := job.(phase := next)])
      case RefundNotify =>
        if job.phase != Unnotified then Refuses(b, reply, b', NotEnabled)
        else
          var text := if r.status == RefundFailed then RefundFailedLabel else StatusLabel(Refunded);
          && reply == Accepted
          && b' == b.(jobs := b.jobs[rid := job.(phase := Ended)],
                      sent := b.sent + {Webhook(text, r.transactionId, rid, text, r.amount)})
      case RefundLost =>
        reply == Accepted && b' == b.(jobs := b.jobs[rid := job.(phase := Ended)])
  }

  predicate VoidNotifyMeans(b: Book, id: Id, reply: Reply, b': Book) {
    if id !in b.voidNotices then Refuses(b, reply, b', NotEnabled)
    else
      var text := StatusLabel(Voided);
      && reply == Accepted
      && b' == b.(voidNotices := b.voidNotices - {id},
                  sent := b.sent + {Webhook(text, id, "", text, b.voidNotices[id].amount)})
  }

  predicate Means(b: Book, en: Entry, b': Book) {
    match en.op
    case Authorize(id, req, verdict) => AuthorizeMeans(b, id, req, verdict, en.reply, b')
    case Capture(id, key, captured) => CaptureMeans(b, id, key, captured, en.reply, b')
    case Void(id, ok) => VoidMeans(b, id, ok, en.reply, b')
    case RefundOp(id, rid, amount, key) => RefundMeans(b, id, rid, amount, key, en.reply, b')
    case VoidNotify(id) => VoidNotifyMeans(b, id, en.reply, b')
    case SettleDoes(id, step) => SettleMeans(b, id, step, en.reply, b')
    case RefundDoes(rid, step) => RefundJobMeans(b, rid, step, en.reply, b')
  }

  lemma AuthorizeDoes(b: Book, id: Id, req: AuthRequest, verdict: Verdict)
    ensures var o := DoAuthorize(b, id, req, verdict); AuthorizeMeans(b, id, req, verdict, o.reply, o.book)
  {
    var row := NewTransaction(req, verdict);
    assert PurchaseKeyUsed(b.txs, row.merchantId, row.purchaseKey) <==>
      row.purchaseKey != ""
      && exists other :: other in b.txs && HasPurchaseKey(b.txs[other], row.merchantId, row.purchaseKey);
  }

  lemma CaptureDoes(b: Book, id: Id, key: string, captured: int)
    ensures var o := DoCapture(b, id, key, captured); CaptureMeans(b, id, key, captured, o.reply, o.book)
  {
    if id in b.txs {
      var tx := b.txs[id].(status := CapturePending, idempotencyKey := key);
      assert forall other :: other in b.txs ==> (KeyClash(b.txs[other], tx) <==>
        key != "" && b.txs[other].idempotencyKey == key && b.txs[other].merchantId == tx.merchantId);
    }
  }

  lemma VoidDoes(b: Book, id: Id, ok: bool)
    ensures var o := DoVoid(b, id, ok); VoidMeans(b, id, ok, o.reply, o.book)
  {}

  lemma RefundDoesSo(b: Book, id: Id, rid: Id, amount: int, key: string)
    ensures var o := DoRefund(b, id, rid, amount, key); RefundMeans(b, id, rid, amount, key, o.reply, o.book)
  {
    var refund := Refund(id, amount, RefundPending, key);
    assert forall other :: other in b.refunds ==> (SameRefundKey(b.refunds[other], refund) <==>
      b.refunds[other].transactionId == id && b.refunds[other].idempotencyKey == key);
  }

  lemma SettleDoesSo(b: Book, id: Id, step: SettleStep)
    requires Rows(b)
    ensures var o := DoSettle(b, id, step); SettleMeans(b, id, step, o.reply, o.book)
  {
    if id in b.settles { assert RowOk(b.txs[id], JobOf(b, id)); }
  }

  lemma RefundJobDoes(b: Book, rid: Id, step: RefundStep)
    requires Inv(b)
    ensures var o := DoRefundJob(b, rid, step); RefundJobMeans(b, rid, step, o.reply, o.book)
  {
    if rid in b.refunds && rid in b.jobs {
      assert RefundOk(b.refunds[rid], b.jobs[rid]);
      match step
      case RefundBank(ok) => RefundBankDoes(b, rid, ok);
      case RefundWrite => RefundWriteDoes(b, rid);
      case Release => ReleaseDoes(b, rid);
      case ReleaseFails => ReleaseFailsDoes(b, rid);
      case RefundNotify => RefundNotifyDoes(b, rid);
      case RefundLost =>
    }
  }

  lemma RefundBankDoes(b: Book, rid: Id, ok: bool)
    requires rid in b.refunds && rid in b.jobs
    ensures var o := DoRefundBank(b, rid, ok); RefundJobMeans(b, rid, RefundBank(ok), o.reply, o.book)
  {}

  lemma RefundWriteDoes(b: Book, rid: Id)
    requires rid in b.refunds && rid in b.jobs
    ensures var o := DoRefundWrite(b, rid); RefundJobMeans(b, rid, RefundWrite, o.reply, o.book)
  {}

  lemma {:induction false} ReleaseDoes(b: Book, rid: Id)
    requires Inv(b) && rid in b.refunds && rid in b.jobs
    ensures var o := DoRelease(b, rid); RefundJobMeans(b, rid, Release, o.reply, o.book)
  {
    if b.jobs[rid].phase.Releasing? {
      ReservationIsThere(b, rid);
      FittingReleaseDoes(b, rid);
    }
  }

  lemma FittingReleaseDoes(b: Book, rid: Id)
    requires rid in b.refunds && rid in b.jobs && b.jobs[rid].phase.Releasing? && ReleaseFits(b, rid)
    ensures var o := DoRelease(b, rid); RefundJobMeans(b, rid, Release, o.reply, o.book)
  {}

  lemma ReleaseFailsDoes(b: Book, rid: Id)
    requires rid in b.refunds && rid in b.jobs
    ensures var o := DoReleaseFails(b, rid); RefundJobMeans(b, rid, ReleaseFails, o.reply, o.book)
  {}

  lemma RefundNotifyDoes(b: Book, rid: Id)
    requires rid in b.refunds && rid in b.jobs && RefundOk(b.refunds[rid], b.jobs[rid])
    ensures var o := DoRefundNotify(b, rid); RefundJobMeans(b, rid, RefundNotify, o.reply, o.book)
  {}

  lemma VoidNotifyDoes(b: Book, id: Id)
    requires Notices(b)
    ensures var o := DoVoidNotify(b, id); VoidNotifyMeans(b, id, o.reply, o.book)
  {}

  lemma {:induction false} DoMeans(b: Book, op: Op)
    requires Inv(b)
    ensures var o := Do(b, op); Means(b, Entry(op, o.reply), o.book)
  {
    match op
    case Authorize(id, req, verdict) => AuthorizeDoes(b, id, req, verdict);
    case Capture(id, key, captured) => CaptureDoes(b, id, key, captured);
    case Void(id, ok) => VoidDoes(b, id, ok);
    case RefundOp(id, rid, amount, key) => RefundDoesSo(b, id, rid, amount, key);
    case VoidNotify(id) => VoidNotifyDoes(b, id);
    case SettleDoes(id, step) => SettleDoesSo(b, id, step);
    case RefundDoes(rid, step) => RefundJobDoes(b, rid, step);
  }

  /** In every interleaving, every entry on record did this to the ledger that the entries before it left. */
  lemma {:induction false} EveryEntryMeans(es: seq<Event>, i: nat)
    requires i < |Run(INIT, es).history|
    ensures var h := Run(INIT, es).history; Means(After(h[..i]), h[i], After(h[..i + 1]))
  {
    Linearizable(es);
    EntryMeans(Run(INIT, es).history, i);
  }

  lemma {:induction false} EntryMeans(h: seq<Entry>, i: nat)
    requires Honest(h) && i < |h|
    ensures Means(After(h[..i]), h[i], After(h[..i + 1]))
  {
    AfterSound(h[..i]);
    DoMeans(After(h[..i]), h[i].op);
    OneFurther(h, i);
  }

  lemma {:induction false} OneFurther(h: seq<Entry>, i: nat)
    requires i < |h|
    ensures After(h[..i + 1]) == Do(After(h[..i]), h[i].op).book
  {
    PrefixOfPrefix(h, i);
  }

  // Calls that nobody disturbs.

  /** The call is over, it got one answer, and the answer means what it says. */
  predicate Ends(l: Ledger, l': Ledger, op: Op) {
    && |l'.history| == |l.history| + 1 && l'.history[..|l.history|] == l.history
    && Means(l.book, Entry(op, l'.history[|l.history|].reply), l'.book)
    && (l'.history[|l.history|].reply == Accepted ==> l'.history[|l.history|].op == op)
    && l'.sessions == l.sessions && l'.locks.holder == l.locks.holder
  }

  lemma {:induction false} PerformedMeans(l: Ledger, l': Ledger, op: Op)
    requires Performed(l, l', op) && Inv(l.book)
    ensures Ends(l, l', op)
  {
    DoMeans(l.book, op);
  }

  function CaptureStatements(sid: Id, id: Id, key: string, captured: int): seq<Event> {
    [Begin(sid, id, CaptureCall(key, captured))] + [UpdateRow(sid)] + [Commit(sid)]
  }

  function VoidStatements(sid: Id, id: Id, bankOk: bool): seq<Event> {
    [Begin(sid, id, VoidCall)] + [AskVoid(sid, bankOk)] + [UpdateRow(sid)] + [Commit(sid)]
  }

  function RefundStatements(sid: Id, id: Id, rid: Id, amount: int, key: string): seq<Event> {
    [Begin(sid, id, RefundCall(amount, key))] + [UpdateRow(sid)] + [InsertRefund(sid, rid)] + [Commit(sid)]
  }

  /** In every run, on every row nobody holds: the statements of a capture end as said. */
  lemma {:induction false} UndisturbedCapture(es: seq<Event>, sid: Id, id: Id, key: string, captured: int)
    requires Undisturbed(Run(INIT, es), sid, id) && CaptureKeyIdle(Run(INIT, es), id, key)
    ensures Ends(Run(INIT, es), Run(INIT, es + CaptureStatements(sid, id, key, captured)), Capture(id, key, captured))
  {
    var l := Run(INIT, es);
    RunThree(es, Begin(sid, id, CaptureCall(key, captured)), UpdateRow(sid), Commit(sid));
    SoloCapture(l, sid, id, key, captured);
    RunsSound(es);
    PerformedMeans(l, Run(INIT, es + CaptureStatements(sid, id, key, captured)), Capture(id, key, captured));
  }

  lemma {:induction false} UndisturbedVoid(es: seq<Event>, sid: Id, id: Id, bankOk: bool)
    requires Undisturbed(Run(INIT, es), sid, id)
    ensures Ends(Run(INIT, es), Run(INIT, es + VoidStatements(sid, id, bankOk)), Void(id, bankOk))
  {
    var l := Run(INIT, es);
    RunFour(es, Begin(sid, id, VoidCall), AskVoid(sid, bankOk), UpdateRow(sid), Commit(sid));
    Linearizable(es);
    SoloVoid(l, sid, id, bankOk);
    PerformedMeans(l, Run(INIT, es + VoidStatements(sid, id, bankOk)), Void(id, bankOk));
  }

  /** The same for a refund: accepted exactly when the row is captured or partially refunded, the amount is positive and
      fits, and id and key are new. */
  lemma {:induction false} UndisturbedRefund(es: seq<Event>, sid: Id, id: Id, rid: Id, amount: int, key: string)
    requires Undisturbed(Run(INIT, es), sid, id) && !RidInFlight(Run(INIT, es), rid)
    ensures Ends(Run(INIT, es), Run(INIT, es + RefundStatements(sid, id, rid, amount, key)),
              RefundOp(id, rid, amount, key))
  {
    var l := Run(INIT, es);
    RunFour(es, Begin(sid, id, RefundCall(amount, key)), UpdateRow(sid), InsertRefund(sid, rid), Commit(sid));
    Linearizable(es);
    SoloRefund(l, sid, id, rid, amount, key);
    PerformedMeans(l, Run(INIT, es + RefundStatements(sid, id, rid, amount, key)), RefundOp(id, rid, amount, key));
  }

  // Refunds in parts.

  function Sum(parts: seq<int>): int {
    if parts == [] then 0 else Sum(parts[..|parts| - 1]) + parts[|parts| - 1]
  }

  predicate Positive(parts: seq<int>) {
    forall i :: 0 <= i < |parts| ==> parts[i] >= 1
  }

  predicate AcceptedRefund(en: Entry, id: Id, amount: int) {
    en.op.RefundOp? && en.op.id == id && en.op.amount == amount && en.reply == Accepted
  }

  /** What is new on record are accepted refunds of these amounts, in this order. */
  predicate RefundedIn(before: seq<Entry>, after: seq<Entry>, id: Id, parts: seq<int>) {
    && before <= after && |after| == |before| + |parts|
    && forall i :: 0 <= i < |parts| ==> AcceptedRefund(after[|before| + i], id, parts[i])
  }

  lemma {:induction false} RefundedInMore(
      h: seq<Entry>, h1: seq<Entry>, h2: seq<Entry>, id: Id, parts: seq<int>, a: int)
    requires RefundedIn(h, h1, id, parts) && RefundedIn(h1, h2, id, [a])
    ensures RefundedIn(h, h2, id, parts + [a])
  {
    forall i | 0 <= i < |parts| + 1 ensures AcceptedRefund(h2[|h| + i], id, (parts + [a])[i]) {
      if i < |parts| {
        assert h2[|h| + i] == h1[|h| + i];
      } else {
        assert AcceptedRefund(h2[|h1| + 0], id, [a][0]);
      }
    }
  }

  predicate Refundable(l: Ledger, id: Id) {
    && id in l.book.txs && id !in l.locks.holder
    && (l.book.txs[id].status == Captured || l.book.txs[id].status == PartiallyRefunded)
  }

  lemma {:induction false} FreshRid(l: Ledger) returns (rid: Id)
    ensures rid !in l.book.refunds && !RidInFlight(l, rid)
  {
    var flying := set s | s in l.sessions && l.sessions[s].stage.Inserted? :: l.sessions[s].stage.rid;
    rid := FreshString(l.book.refunds.Keys + flying);
    forall s | s in l.sessions && l.sessions[s].stage.Inserted? ensures l.sessions[s].stage.rid in flying {}
  }

  lemma {:induction false} FreshRefundKey(b: Book, id: Id) returns (key: string)
    ensures key != "" && !RefundKeyUsed(b, id, key)
  {
    var used := set r | r in b.refunds :: b.refunds[r].idempotencyKey;
    key := FreshString(used);
    forall r | r in b.refunds ensures b.refunds[r].idempotencyKey in used {}
  }

  /** These parts were refunded, and what is left may still be. */
  predicate PaidBack(l: Ledger, l': Ledger, id: Id, parts: seq<int>) {
    && RefundedIn(l.history, l'.history, id, parts)
    && id in l.book.txs && id in l'.book.txs && l'.book.txs[id].amount == l.book.txs[id].amount
    && l'.book.txs[id].refundedAmount == l.book.txs[id].refundedAmount + Sum(parts)
    && (l'.book.txs[id].refundedAmount < l'.book.txs[id].amount ==> Refundable(l', id))
  }

  lemma {:induction false} PaidBackMore(l: Ledger, l1: Ledger, l2: Ledger, id: Id, parts: seq<int>, a: int)
    requires PaidBack(l, l1, id, parts) && PaidBack(l1, l2, id, [a])
    ensures PaidBack(l, l2, id, parts + [a])
  {
    RefundedInMore(l.history, l1.history, l2.history, id, parts, a);
    assert (parts + [a])[..|parts|] == parts && [a][..0] == [];
    assert Sum([a]) == a;
  }

  lemma {:induction false} RefundPart(es: seq<Event>, id: Id, amount: int) returns (es': seq<Event>)
    requires Refundable(Run(INIT, es), id) && amount >= 1
    requires var tx := Run(INIT, es).book.txs[id]; tx.refundedAmount + amount <= tx.amount
    ensures es <= es' && PaidBack(Run(INIT, es), Run(INIT, es'), id, [amount])
  {
    var l := Run(INIT, es);
    var sid := FreshString(l.sessions.Keys);
    var rid := FreshRid(l);
    var key := FreshRefundKey(l.book, id);
    UndisturbedRefund(es, sid, id, rid, amount, key);
    es' := es + RefundStatements(sid, id, rid, amount, key);
    assert [amount][..0] == [] && Sum([amount]) == amount;
  }

  /** In every run, a captured or partially refunded row that nobody holds can be refunded in any parts that together
      fit into what is left of it. */
  lemma {:induction false} RefundInParts(es: seq<Event>, id: Id, parts: seq<int>) returns (es': seq<Event>)
    requires Refundable(Run(INIT, es), id) && Positive(parts)
    requires var tx := Run(INIT, es).book.txs[id]; tx.refundedAmount + Sum(parts) <= tx.amount
    ensures es <= es' && PaidBack(Run(INIT, es), Run(INIT, es'), id, parts)
    decreases |parts|
  {
    es' := es;
    if parts != [] {
      var most, last := parts[..|parts| - 1], parts[|parts| - 1];
      var es1 := RefundInParts(es, id, most);
      es' := RefundPart(es1, id, last);
      PaidBackMore(Run(INIT, es), Run(INIT, es1), Run(INIT, es'), id, most, last);
      assert most + [last] == parts;
    }
  }
}
