/** Which webhooks get through to the merchant, and which never do. */
module WorldDelivery {
  import opened Base
  import opened Transactions
  import B = Book
  import P = BookProofs
  import LT = LedgerTheorems
  import LM = LedgerMoney
  import opened Mirror
  import opened MirrorProofs
  import opened MirrorTheorems
  import opened World

  // Settlement is never mirrored.

  /** A settlement webhook carries capture_pending, and no payment is ever moved by it. */
  lemma SettleWebhookRejected(b: B.Book, id: Id, m: Mirror)
    requires P.Rows(b) && B.SettlePhase(b, id) == B.Unnotified
    ensures var w := B.CaptureWebhook(id, b.settles[id].tx);
      && w in B.DoSettleNotify(b, id).book.sent
      && w.status == B.StatusLabel(CapturePending)
      && DoDeliver(m, w) == Outcome(if id in m.payments then UnknownStatus else UnknownPayment, m)
  {
    assert P.RowOk(b.txs[id], P.JobOf(b, id));
  }

  predicate NeverSettled(m: Mirror) {
    forall id :: id in m.payments ==> m.payments[id].status != Captured && m.payments[id].status != CaptureFailed
  }

  lemma NeverSettledStep(m: Mirror, op: Op, b: B.Book)
    requires NeverSettled(m) && (op.Create? ==> JustCreated(op.payment))
    requires op.Deliver? ==> P.Truthful(b, op.webhook)
    ensures NeverSettled(Do(m, op).mirror)
  {}

  lemma {:induction false} NeverSettledAfter(h: seq<Entry>, b: B.Book)
    requires FreshPayments(h) && P.Wire(b) && forall en :: en in h && en.op.Deliver? ==> en.op.webhook in b.sent
    ensures NeverSettled(After(h))
  {
    if h != [] {
      assert h[|h| - 1] in h;
      NeverSettledAfter(h[..|h| - 1], b);
      NeverSettledStep(After(h[..|h| - 1]), h[|h| - 1].op, b);
    }
  }

  /** In no run does a payment become captured or capture_failed, although the code handles both webhooks. */
  lemma {:induction false} SettlementNeverMirrored(hs: seq<Happening>, id: Id)
    requires id in Story(hs).merchant.mirror.payments
    ensures var s := Story(hs).merchant.mirror.payments[id].status; s != Captured && s != CaptureFailed
  {
    var es := LedgerHalf(hs);
    var ms := MerchantHalf(hs);
    StoryHolds(hs);
    LT.RunsSound(es);
    Linearizable(ms);
    RunsStartClean(ms);
    NeverSettledAfter(Story(hs).merchant.history, Story(hs).ledger.book);
  }

  // Refunds get through once.

  predicate IdsDistinct(m: Mirror) {
    forall a, b :: a in m.payments && b in m.payments && m.payments[a].id == m.payments[b].id ==> a == b
  }

  /** Stored event `k` comes from the webhook of a committed handler. */
  predicate ComesFrom(m: Mirror, k: EventKey, en: Entry) {
    && en.op.Deliver? && en.reply == Applied && en.op.webhook.transactionId in m.payments
    && k == EventOf(m.payments[en.op.webhook.transactionId], en.op.webhook)
    && (IsRefund(en.op.webhook) || en.op.webhook.status.StatusLabel?)
  }

  predicate Stored(m: Mirror, h: seq<Entry>) {
    && IdsDistinct(m)
    && forall k :: k in m.events ==> exists en :: en in h && ComesFrom(m, k, en)
  }

  predicate KeepsIds(m: Mirror, m': Mirror) {
    forall id :: id in m.payments ==> id in m'.payments && m'.payments[id].id == m.payments[id].id
  }

  lemma DoKeepsIds(m: Mirror, op: Op)
    requires IdsDistinct(m)
    ensures KeepsIds(m, Do(m, op).mirror) && IdsDistinct(Do(m, op).mirror)
  {}

  lemma StoredStep(m: Mirror, h: seq<Entry>, en: Entry)
    requires Stored(m, h) && Do(m, en.op).reply == en.reply
    ensures Stored(Do(m, en.op).mirror, h + [en])
  {
    DoKeepsIds(m, en.op);
    var m' := Do(m, en.op).mirror;
    forall k | k in m'.events ensures exists o :: o in h + [en] && ComesFrom(m', k, o) {
      if k in m.events {
        var o :| o in h && ComesFrom(m, k, o);
        assert o in h + [en] && ComesFrom(m', k, o);
      } else {
        assert en in h + [en] && ComesFrom(m', k, en);
      }
    }
  }

  lemma {:induction false} AlwaysStored(h: seq<Entry>)
    requires Honest(h)
    ensures Stored(After(h), h)
  {
    if h != [] {
      AlwaysStored(h[..|h| - 1]);
      assert h == h[..|h| - 1] + [h[|h| - 1]];
      StoredStep(After(h[..|h| - 1]), h[..|h| - 1], h[|h| - 1]);
    }
  }

  /** Among the webhooks the provider sends and the handler applies, the event key tells refunds apart. */
  lemma KeysTellRefundsApart(b: B.Book, w: Webhook, o: Webhook)
    requires P.Truthful(b, o) && (IsRefund(o) || o.status.StatusLabel?)
    requires IsRefund(w) && o.transactionId == w.transactionId && KeyText(o) == KeyText(w)
    ensures IsRefund(o) && o.refundId == w.refundId
  {
    if IsRefund(o) {
      assert KeyText(o) == RefundKey(w.transactionId, o.refundId);
      RefundKeysDiffer(w.transactionId, w.refundId, o.refundId);
    } else {
      OtherKeysDiffer(b, w, o);
    }
  }

  lemma OtherKeysDiffer(b: B.Book, w: Webhook, o: Webhook)
    requires P.Truthful(b, o) && o.status.StatusLabel? && !IsRefund(o)
    requires IsRefund(w) && o.transactionId == w.transactionId
    ensures KeyText(o) != KeyText(w)
  {
    var stem := "webhook_" + w.transactionId + "_transaction.";
    assert KeyText(w)[|stem|] == 'r';
    assert KeyText(o) == stem + LabelText(o.event);
    assert KeyText(o)[|stem|] == LabelText(o.event)[0];
  }

  lemma {:induction false} AppliedIsCredited(h: seq<Entry>, en: Entry)
    requires en in h && en.op.Deliver? && en.reply == Applied && IsRefund(en.op.webhook)
    ensures en.op.webhook.refundId in Credited(h, en.op.webhook.transactionId)
  {
    var i :| 0 <= i < |h| && h[i] == en;
    CreditStays(h, i, en.op.webhook.transactionId, en.op.webhook.refundId);
  }

  /** The webhook of a paid refund that has not been credited yet is applied, whatever has been delivered before. */
  lemma {:induction false} FreshRefundIsApplied(hs: seq<Happening>, w: Webhook)
    requires w in Story(hs).ledger.book.sent && IsRefund(w)
    requires w.transactionId in Story(hs).merchant.mirror.payments
    requires w.refundId !in Credited(Story(hs).merchant.history, w.transactionId)
    ensures DoDeliver(Story(hs).merchant.mirror, w).reply == Applied
  {
    var l, b := Story(hs).merchant, Story(hs).ledger.book;
    var es := LedgerHalf(hs);
    var ms := MerchantHalf(hs);
    StoryHolds(hs);
    LT.RunsSound(es);
    Linearizable(ms);
    AlwaysStored(l.history);
    var key := EventOf(l.mirror.payments[w.transactionId], w);
    if key in l.mirror.events {
      var en :| en in l.history && ComesFrom(l.mirror, key, en);
      KeysTellRefundsApart(b, w, en.op.webhook);
      AppliedIsCredited(l.history, en);
    }
  }

  /** A credited refund's webhook is refused from then on. */
  lemma {:induction false} CreditedIsRefused(hs: seq<Happening>, w: Webhook)
    requires IsRefund(w) && w.transactionId in Story(hs).merchant.mirror.payments
    requires w.refundId in Credited(Story(hs).merchant.history, w.transactionId)
    ensures DoDeliver(Story(hs).merchant.mirror, w) == Outcome(AlreadyStored, Story(hs).merchant.mirror)
  {
    var ms := MerchantHalf(hs);
    Linearizable(ms);
    RunsStartClean(ms);
    var l := Story(hs).merchant;
    AlwaysAccounted(l.history, w.transactionId);
    assert KeyText(w) == RefundKey(w.transactionId, w.refundId);
  }

  /** Once every paid refund has been credited, the mirror shows exactly what the provider has paid. */
  lemma {:induction false} CaughtUp(hs: seq<Happening>, id: Id)
    requires id in Story(hs).merchant.mirror.payments
    requires LM.OfStatus(Story(hs).ledger.book, id, RefundDone).Keys <= Credited(Story(hs).merchant.history, id).Keys
    ensures Story(hs).merchant.mirror.payments[id].refundedAmount
        == Total(LM.OfStatus(Story(hs).ledger.book, id, RefundDone))
  {
    var es := LedgerHalf(hs);
    var ms := MerchantHalf(hs);
    StoryHolds(hs);
    LT.RunsSound(es);
    ExactlyOnceEffect(ms, id);
    CreditsWerePaid(Story(hs).merchant.history, Story(hs).ledger.book, id);
    SameMap(Credited(Story(hs).merchant.history, id), LM.OfStatus(Story(hs).ledger.book, id, RefundDone));
  }

  lemma SameMap(a: map<Id, int>, b: map<Id, int>)
    requires b.Keys <= a.Keys && forall k :: k in a ==> k in b && a[k] == b[k]
    ensures a == b
  {}
}
