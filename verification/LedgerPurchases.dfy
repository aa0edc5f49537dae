/** Purchase keys in the provider's ledger, whatever is asked for and in whatever order. */
module LedgerPurchases {
  import opened Base
  import opened Transactions
  import opened Book
  import opened BookProofs
  import opened Ledger
  import opened LedgerProofs
  import opened LedgerTheorems
  import opened LedgerMoney

  lemma {:induction false} OnlyAuthorizeAdds(b: Book, op: Op, id: Id)
    requires Rows(b) && Refunds(b) && id in Do(b, op).book.txs && id !in b.txs
    ensures var row := Do(b, op).book.txs[id];
      && !PurchaseKeyUsed(b.txs, row.merchantId, row.purchaseKey)
      && Do(b, op).book.txs == b.txs[id := row]
  {
    match op
    case Authorize(_, _, _) =>
    case Capture(_, _, _) =>
    case Void(_, _) =>
    case RefundOp(_, _, _, _) =>
    case VoidNotify(_) =>
    case SettleDoes(of, step) => SettlingAddsNothing(b, of, step);
    case RefundDoes(rid, step) => RefundingAddsNothing(b, rid, step);
  }

  lemma SettlingAddsNothing(b: Book, of: Id, step: SettleStep)
    requires Rows(b)
    ensures DoSettle(b, of, step).book.txs.Keys == b.txs.Keys
  {}

  lemma RefundingAddsNothing(b: Book, rid: Id, step: RefundStep)
    ensures DoRefundJob(b, rid, step).book.txs.Keys == b.txs.Keys
  {}

  lemma {:induction false} NewKeyStaysUnique(txs: map<Id, Transaction>, id: Id, row: Transaction)
    requires PurchaseKeysUnique(txs) && id !in txs && !PurchaseKeyUsed(txs, row.merchantId, row.purchaseKey)
    ensures PurchaseKeysUnique(txs[id := row])
  {
    forall o | o in txs ensures !SamePurchaseKey(txs[o], row) && !SamePurchaseKey(row, txs[o]) {
      assert !HasPurchaseKey(txs[o], row.merchantId, row.purchaseKey);
    }
  }

  lemma {:induction false} DoKeepsPurchaseKeys(b: Book, op: Op)
    requires Rows(b) && Refunds(b) && PurchaseKeysUnique(b.txs)
    ensures PurchaseKeysUnique(Do(b, op).book.txs)
  {
    var b' := Do(b, op).book;
    StepRows(b, op);
    if id :| id in b'.txs && id !in b.txs {
      OnlyAuthorizeAdds(b, op, id);
      NewKeyStaysUnique(b.txs, id, b'.txs[id]);
    } else {
      forall x, y | x in b'.txs && y in b'.txs && SamePurchaseKey(b'.txs[x], b'.txs[y]) ensures x == y {
        assert SamePurchase(b.txs[x], b'.txs[x]) && SamePurchase(b.txs[y], b'.txs[y]);
        assert SamePurchaseKey(b.txs[x], b.txs[y]);
      }
    }
  }

  /** In every run at most one transaction is stored for a merchant and purchase key. */
  lemma {:induction false} RunsKeepPurchaseKeys(es: seq<Event>)
    ensures PurchaseKeysUnique(Run(INIT, es).book.txs)
  {
    if es != [] {
      var l, e := Run(INIT, es[..|es| - 1]), es[|es| - 1];
      RunsKeepPurchaseKeys(es[..|es| - 1]);
      Linearizable(es[..|es| - 1]);
      StepExplained(l, e);
      if Step(l, e).history != l.history { DoKeepsPurchaseKeys(l.book, Step(l, e).history[|l.history|].op); }
    }
  }

  predicate CapturesUnder(en: Entry, b: Book, merchant: string, key: string) {
    && en.op.Capture? && en.reply == Accepted
    && en.op.id in b.txs && HasPurchaseKey(b.txs[en.op.id], merchant, key)
  }

  /** Whoever asks for captures, with whatever capture keys: no run accepts two captures for one merchant and
      purchase key. */
  lemma OneCaptureAccepted(es: seq<Event>, i: nat, j: nat, merchant: string, key: string)
    requires var l := Run(INIT, es); i < j < |l.history| && CapturesUnder(l.history[i], l.book, merchant, key)
    ensures !CapturesUnder(Run(INIT, es).history[j], Run(INIT, es).book, merchant, key)
  {
    var l := Run(INIT, es);
    RunsKeepPurchaseKeys(es);
    if CapturesUnder(l.history[j], l.book, merchant, key) {
      assert SamePurchaseKey(l.book.txs[l.history[i].op.id], l.book.txs[l.history[j].op.id]);
      CaptureAndVoidExclude(es, i, j, l.history[i].op.id);
    }
  }
}
