/** Money and life-cycle guarantees of every run of the provider's ledger. */
module LedgerMoney {
  import opened Base
  import opened Transactions
  import opened Book
  import opened Ledger
  import opened BookProofs
  import opened LedgerProofs
  import opened LedgerTheorems

  /** Refunds of one transaction in one status. */
  ghost function OfStatus(b: Book, id: Id, status: RefundStatus): map<Id, int> {
    map rid | rid in b.refunds && b.refunds[rid].transactionId == id && b.refunds[rid].status == status
      :: b.refunds[rid].amount
  }

  /** Refused refunds whose reservation nobody has given back (yet, or ever). */
  ghost function Unreleased(b: Book, id: Id): map<Id, int> {
    map rid | rid in b.refunds && b.refunds[rid].transactionId == id && b.refunds[rid].status == RefundFailed
              && rid in b.jobs && !b.jobs[rid].released
      :: b.refunds[rid].amount
  }

  /** Refunds the bank said yes to, whatever the database knows about them. */
  ghost function BankPaid(b: Book, id: Id): map<Id, int> {
    map rid | rid in b.refunds && b.refunds[rid].transactionId == id && rid in b.jobs && true in b.jobs[rid].answers
      :: b.refunds[rid].amount
  }

  lemma {:induction false} HeldSplits(b: Book, id: Id)
    requires Refunds(b)
    ensures Held(b.refunds, b.jobs, id)
         == OfStatus(b, id, RefundPending) + OfStatus(b, id, RefundDone) + Unreleased(b, id)
  {}

  lemma {:induction false} ConservedIn(b: Book, id: Id)
    requires Inv(b) && id in b.txs
    ensures b.txs[id].refundedAmount
         == Total(OfStatus(b, id, RefundPending)) + Total(OfStatus(b, id, RefundDone)) + Total(Unreleased(b, id))
  {
    HeldSplits(b, id);
    TotalUnion(OfStatus(b, id, RefundPending), OfStatus(b, id, RefundDone));
    TotalUnion(OfStatus(b, id, RefundPending) + OfStatus(b, id, RefundDone), Unreleased(b, id));
  }

  /** In every run the balance is the sum of the pending, the paid, and the refused but unreleased refunds,
      lies between zero and the amount, and agrees with the status. */
  lemma {:induction false} RefundConservation(es: seq<Event>, id: Id)
    requires id in Run(INIT, es).book.txs
    ensures var b := Run(INIT, es).book; var tx := b.txs[id];
      && tx.refundedAmount
           == Total(OfStatus(b, id, RefundPending)) + Total(OfStatus(b, id, RefundDone)) + Total(Unreleased(b, id))
      && 0 <= tx.refundedAmount <= tx.amount
      && (tx.status == PartiallyRefunded <==> 0 < tx.refundedAmount < tx.amount)
      && (tx.status == Refunded <==> tx.refundedAmount == tx.amount)
  {
    RunsSound(es);
    ConservedIn(Run(INIT, es).book, id);
  }

  lemma {:induction false} PaidWithin(b: Book, id: Id)
    requires Inv(b) && id in b.txs
    ensures 0 <= Total(OfStatus(b, id, RefundDone)) <= Total(BankPaid(b, id))
              <= b.txs[id].refundedAmount <= b.txs[id].amount
  {
    TotalMonotone(OfStatus(b, id, RefundDone), BankPaid(b, id));
    TotalMonotone(BankPaid(b, id), Held(b.refunds, b.jobs, id));
  }

  /** What the bank agrees to pay back never exceeds the transaction, even when the database loses track of it. */
  lemma {:induction false} BankNeverOverpays(es: seq<Event>, id: Id)
    requires id in Run(INIT, es).book.txs
    ensures var b := Run(INIT, es).book;
      Total(OfStatus(b, id, RefundDone)) <= Total(BankPaid(b, id)) <= b.txs[id].refundedAmount <= b.txs[id].amount
  {
    RunsSound(es);
    PaidWithin(Run(INIT, es).book, id);
  }

  /** If the paid refunds exhaust the amount, the row says refunded. */
  lemma {:induction false} FullyPaidIsRefunded(b: Book, id: Id)
    requires Inv(b) && id in b.txs && Total(OfStatus(b, id, RefundDone)) >= b.txs[id].amount
    ensures b.txs[id].status == Refunded
  {
    PaidWithin(b, id);
  }

  lemma {:induction false} ReservationIsThere(b: Book, rid: Id)
    requires Inv(b) && JobPhase(b, rid).Releasing?
    ensures ReleaseFits(b, rid)
  {
    assert RefundOk(b.refunds[rid], b.jobs[rid]);
    var held := Held(b.refunds, b.jobs, b.refunds[rid].transactionId);
    TotalMonotone(map[rid := held[rid]], held);
    TotalSplit(map[rid := held[rid]], rid);
    assert map[rid := held[rid]] - {rid} == map[];
  }

  /** A release always finds its row, with at least its amount on it, so the CHECK never refuses one. */
  lemma {:induction false} ReleaseNeverOverdraws(es: seq<Event>, rid: Id)
    requires JobPhase(Run(INIT, es).book, rid).Releasing?
    ensures ReleaseFits(Run(INIT, es).book, rid)
  {
    RunsSound(es);
    ReservationIsThere(Run(INIT, es).book, rid);
  }

  /** The compare-and-set after settlement always finds capture_pending: ErrStatusChanged cannot occur. */
  lemma {:induction false} SettleNeverMisses(es: seq<Event>, id: Id)
    requires SettlePhase(Run(INIT, es).book, id).Answered?
    ensures SettleHits(Run(INIT, es).book, id)
  {
    RunsSound(es);
  }

  /** Every committed change of every row is a declared transition or one of the three release edges,
      and never touches what the merchant bought. */
  lemma {:induction false} StatusHistory(es: seq<Event>, e: Event)
    ensures RowsEvolve(Run(INIT, es).book, Step(Run(INIT, es), e).book)
    ensures PaidForGood(Run(INIT, es).book, Step(Run(INIT, es), e).book)
  {
    var l := Run(INIT, es);
    Linearizable(es);
    StepExplained(l, e);
    var l' := Step(l, e);
    if l'.history != l.history {
      StepRows(l.book, l'.history[|l.history|].op);
      StepPaidForGood(l.book, l'.history[|l.history|].op);
    }
  }

  /** `tx'` is a later image of `tx`. */
  predicate Descends(tx: Transaction, tx': Transaction) {
    && SamePurchase(tx, tx')
    && (Absorbing(tx.status) ==> tx' == tx)
    && (tx.status != Authorized ==> tx'.status != Authorized)
  }

  lemma DescendsStep(tx: Transaction, tx': Transaction, tx'': Transaction)
    requires Descends(tx, tx') && Evolves(tx', tx'')
    ensures Descends(tx, tx'')
  {}

  predicate RowDescends(b: Book, b': Book, id: Id) {
    id in b.txs ==> id in b'.txs && Descends(b.txs[id], b'.txs[id])
  }

  lemma RowDescendsStep(b: Book, b': Book, b'': Book, id: Id)
    requires RowDescends(b, b', id) && RowsEvolve(b', b'')
    ensures RowDescends(b, b'', id)
  {
    if id in b.txs { DescendsStep(b.txs[id], b'.txs[id], b''.txs[id]); }
  }

  /** Declined, voided and capture_failed rows stay exactly as they are; the purchase data of any row does too. */
  lemma {:induction false} AbsorbingForever(es: seq<Event>, more: seq<Event>, id: Id)
    ensures RowDescends(Run(INIT, es).book, Run(INIT, es + more).book, id)
  {
    if more == [] {
      assert es + more == es;
    } else {
      var most := es + more[..|more| - 1];
      assert (es + more)[..|es + more| - 1] == most;
      AbsorbingForever(es, more[..|more| - 1], id);
      StatusHistory(most, more[|more| - 1]);
      RowDescendsStep(Run(INIT, es).book, Run(INIT, most).book, Run(INIT, es + more).book, id);
    }
  }

  // Capture and void exclude each other, and the bank is asked once.

  lemma {:induction false} AfterSound(h: seq<Entry>)
    ensures Inv(After(h))
  {
    if h == [] {
      StartsSound();
    } else {
      AfterSound(h[..|h| - 1]);
      StepKeepsInv(After(h[..|h| - 1]), h[|h| - 1].op);
    }
  }

  /** An accepted capture or void of `id`. */
  predicate LeavesAuthorized(en: Entry, id: Id) {
    en.reply == Accepted && (en.op.Capture? || en.op.Void?) && en.op.id == id
  }

  lemma {:induction false} NeverAuthorizedAgain(h: seq<Entry>, i: nat, id: Id)
    requires i <= |h| && id in After(h[..i]).txs && After(h[..i]).txs[id].status != Authorized
    ensures id in After(h).txs && After(h).txs[id].status != Authorized
  {
    if i == |h| {
      assert h[..i] == h;
    } else {
      var most := h[..|h| - 1];
      assert most[..i] == h[..i];
      NeverAuthorizedAgain(most, i, id);
      AfterSound(most);
      StepRows(After(most), h[|h| - 1].op);
      RowDescendsStep(After(most), After(most), After(h), id);
    }
  }

  lemma {:induction false} OneWayOut(h: seq<Entry>, i: nat, j: nat, id: Id)
    requires Honest(h) && i < j < |h| && LeavesAuthorized(h[i], id)
    ensures !LeavesAuthorized(h[j], id)
  {
    assert h[..i + 1][..i] == h[..i];
    assert h[..j][..i + 1] == h[..i + 1];
    NeverAuthorizedAgain(h[..j], i + 1, id);
  }

  /** No run commits two captures, two voids, or a capture and a void of one transaction. */
  lemma {:induction false} CaptureAndVoidExclude(es: seq<Event>, i: nat, j: nat, id: Id)
    requires var h := Run(INIT, es).history; i < j < |h| && LeavesAuthorized(h[i], id)
    ensures !LeavesAuthorized(Run(INIT, es).history[j], id)
  {
    Linearizable(es);
    OneWayOut(Run(INIT, es).history, i, j, id);
  }

  /** An accepted capture of `id` for this amount. */
  predicate CapturesFor(en: Entry, id: Id, amount: int) {
    en.op.Capture? && en.op.id == id && en.op.captured == amount && en.reply == Accepted
  }

  /** A settle goroutine was started by an accepted capture, for the amount that capture asked for. */
  lemma {:induction false} SettleFollowsCapture(h: seq<Entry>, id: Id)
    requires Honest(h) && id in After(h).settles
    ensures exists i :: 0 <= i < |h| && CapturesFor(h[i], id, After(h).settles[id].amount)
  {
    var most, last := h[..|h| - 1], h[|h| - 1];
    var amount := After(h).settles[id].amount;
    assert forall i :: 0 <= i < |most| ==> most[..i] == h[..i];
    StartedByCapture(After(most), last.op, id);
    assert Do(After(h[..|h| - 1]), last.op).reply == last.reply;
    if !CapturesFor(last, id, amount) {
      SettleFollowsCapture(most, id);
      var i :| 0 <= i < |most| && CapturesFor(most[i], id, amount);
      assert h[i] == most[i];
    }
  }

  lemma {:induction false} StartedByCapture(b: Book, op: Op, id: Id)
    requires id in Do(b, op).book.settles
    ensures var amount := Do(b, op).book.settles[id].amount;
      || CapturesFor(Entry(op, Do(b, op).reply), id, amount)
      || (id in b.settles && b.settles[id].amount == amount)
  {
    match op
    case Authorize(_, _, _) =>
    case Capture(_, _, _) =>
    case Void(_, _) =>
    case RefundOp(_, _, _, _) =>
    case VoidNotify(_) =>
    case SettleDoes(of, step) => SettlingKeepsAmounts(b, of, step, id);
    case RefundDoes(rid, step) => RefundingKeepsSettling(b, rid, step);
  }

  lemma SettlingKeepsAmounts(b: Book, of: Id, step: SettleStep, id: Id)
    requires id in DoSettle(b, of, step).book.settles
    ensures id in b.settles && b.settles[id].amount == DoSettle(b, of, step).book.settles[id].amount
  {}

  lemma RefundingKeepsSettling(b: Book, rid: Id, step: RefundStep)
    ensures DoRefundJob(b, rid, step).book.settles == b.settles
  {}

  /** The acquirer is asked to settle a transaction at most once, only after its capture committed, and for the amount
      that capture asked for; it is asked for each refund at most once. */
  lemma {:induction false} BankAskedOnce(es: seq<Event>, id: Id, rid: Id)
    ensures var l := Run(INIT, es);
      && (id in l.book.settles ==>
            && |l.book.settles[id].answers| <= 1
            && exists i :: 0 <= i < |l.history| && CapturesFor(l.history[i], id, l.book.settles[id].amount))
      && (rid in l.book.jobs ==> |l.book.jobs[rid].answers| <= 1)
  {
    Linearizable(es);
    var l := Run(INIT, es);
    if id in l.book.settles { SettleFollowsCapture(l.history, id); }
  }

  // Where the declared life cycle is left.

  lemma GivingBackMoves(tx: Transaction, amount: int)
    requires Consistent(tx) && 1 <= amount <= tx.refundedAmount
    ensures CanTransitionTo(tx.status, GiveBack(tx, amount).status) <==>
      tx.status == PartiallyRefunded && tx.refundedAmount > amount
  {}

  /** A release keeps to the declared table exactly when the row is partially refunded and stays so. */
  lemma ReleaseKeepsTheTableIff(b: Book, rid: Id)
    requires Inv(b) && JobPhase(b, rid).Releasing? && ReleaseFits(b, rid)
    ensures var r := b.refunds[rid]; var tx := b.txs[r.transactionId]; var tx' := GiveBack(tx, r.amount);
      && DoRelease(b, rid).book.txs == b.txs[r.transactionId := tx']
      && (CanTransitionTo(tx.status, tx'.status) <==> (tx.status == PartiallyRefunded && tx.refundedAmount > r.amount))
  {
    var tx, amount := b.txs[b.refunds[rid].transactionId], b.refunds[rid].amount;
    assert RefundOk(b.refunds[rid], b.jobs[rid]) && Consistent(tx);
    GivingBackMoves(tx, amount);
  }
}
