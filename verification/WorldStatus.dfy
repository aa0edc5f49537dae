/** What the mirrored payments' statuses are worth: in every story the refund webhooks leave the declared table. */
module WorldStatus {
  import opened Base
  import opened Transactions
  import B = Book
  import P = BookProofs
  import L = Ledger
  import LT = LedgerTheorems
  import LW = LedgerWitness
  import opened RowStore
  import opened Mirror
  import opened MirrorProofs
  import opened MirrorTheorems
  import opened MirrorCalls
  import opened World
  import opened WorldDelivery

  predicate ShowsRefund(m: Mirror, id: Id) {
    id in m.payments && (m.payments[id].status == PartiallyRefunded || m.payments[id].status == Refunded)
  }

  /** A payment shows a refund only after one was credited. */
  ghost predicate RefundsBacked(m: Mirror, h: seq<Entry>) {
    forall id :: ShowsRefund(m, id) ==> Credited(h, id) != map[]
  }

  predicate AppliesRefund(en: Entry) {
    en.op.Deliver? && IsRefund(en.op.webhook) && en.reply == Applied
  }

  lemma {:induction false} BackedStep(h: seq<Entry>, en: Entry)
    requires RefundsBacked(After(h), h) && Do(After(h), en.op).reply == en.reply
    requires en.op.Create? ==> JustCreated(en.op.payment)
    ensures RefundsBacked(Do(After(h), en.op).mirror, h + [en])
  {
    var m, h' := After(h), h + [en];
    assert h'[..|h|] == h;
    var m' := Do(m, en.op).mirror;
    forall id | ShowsRefund(m', id)
      ensures Credited(h', id) != map[]
    {
      if AppliesRefund(en) && en.op.webhook.transactionId == id {
        assert en.op.webhook.refundId in Credited(h', id);
      } else {
        assert Credited(h', id) == Credited(h, id);
      }
    }
  }

  lemma {:induction false} AlwaysBacked(h: seq<Entry>)
    requires Honest(h) && FreshPayments(h)
    ensures RefundsBacked(After(h), h)
  {
    if h != [] {
      AlwaysBacked(h[..|h| - 1]);
      assert h == h[..|h| - 1] + [h[|h| - 1]];
      BackedStep(h[..|h| - 1], h[|h| - 1]);
    }
  }

  lemma {:induction false} HistoryHolds(hs: seq<Happening>, i: nat)
    requires i < |Story(hs).merchant.history|
    ensures var h := Story(hs).merchant.history;
      && Honest(h[..i + 1]) && Honest(h[..i]) && FreshPayments(h[..i]) && NeverSettled(After(h[..i]))
      && RefundsBacked(After(h[..i]), h[..i]) && h[..i + 1][..i] == h[..i]
  {
    var h := Story(hs).merchant.history;
    var es := LedgerHalf(hs);
    var ms := MerchantHalf(hs);
    StoryHolds(hs);
    LT.RunsSound(es);
    Linearizable(ms);
    RunsStartClean(ms);
    Prefixes(h, i + 1);
    Prefixes(h, i);
    AlwaysBacked(h[..i]);
    NeverSettledAfter(h[..i], Story(hs).ledger.book);
    assert h[..i + 1][..i] == h[..i];
  }

  /** In every story, at every committed refund webhook: a payment's first credited refund leaves the payment table,
      because settlements never reach the mirror; a later one follows it exactly on partially refunded payments. */
  lemma {:induction false} FirstCreditLeavesTheTable(hs: seq<Happening>, i: nat)
    requires i < |Story(hs).merchant.history| && AppliesRefund(Story(hs).merchant.history[i])
    ensures var h := Story(hs).merchant.history;
      var id, m, m' := h[i].op.webhook.transactionId, After(h[..i]), After(h[..i + 1]);
      && id in m.payments && id in m'.payments
      && var from, target := m.payments[id].status, m'.payments[id].status;
      && (Credited(h[..i], id) == map[] ==> !CanTransitionTo(from, target))
      && (CanTransitionTo(from, target) <==> from == PartiallyRefunded)
  {
    HistoryHolds(hs, i);
    CreditLeaves(Story(hs).merchant.history, i);
  }

  lemma {:induction false} CreditLeaves(h: seq<Entry>, i: nat)
    requires i < |h| && AppliesRefund(h[i]) && Honest(h[..i + 1]) && h[..i + 1][..i] == h[..i]
    requires NeverSettled(After(h[..i])) && RefundsBacked(After(h[..i]), h[..i])
    ensures var id, m, m' := h[i].op.webhook.transactionId, After(h[..i]), After(h[..i + 1]);
      && id in m.payments && id in m'.payments
      && var from, target := m.payments[id].status, m'.payments[id].status;
      && (Credited(h[..i], id) == map[] ==> !CanTransitionTo(from, target))
      && (CanTransitionTo(from, target) <==> from == PartiallyRefunded)
  {}

  // Voids are mirrored.

  lemma {:induction false} Extend(hs: seq<Happening>, h: Happening) returns (hs': seq<Happening>)
    ensures hs' == hs + [h] && Story(hs') == Happens(Story(hs), h)
  {
    hs' := hs + [h];
  }

  /** A handler starts on a webhook that was sent, and its statements follow one another. */
  lemma {:induction false} Handled(hs: seq<Happening>, sid: Id, w: Webhook) returns (hs': seq<Happening>)
    requires w in Story(hs).ledger.book.sent
    ensures hs <= hs' && Story(hs').ledger == Story(hs).ledger
    ensures var l := Story(hs).merchant;
      Story(hs').merchant == DoCommit(DoInsertEvent(DoUpdateRow(DoBegin(l, sid, w), sid), sid), sid)
  {
    var h1 := Extend(hs, Merchant(Begin(sid, w)));
    var h2 := Extend(h1, Merchant(UpdateRow(sid)));
    var h3 := Extend(h2, Merchant(InsertEvent(sid)));
    hs' := Extend(h3, Merchant(Commit(sid)));
  }

  /** The event under which a void is stored with its payment. */
  function VoidEvent(p: Payment, id: Id): EventKey {
    EventKey(p.id, "webhook_" + id + "_transaction.voided")
  }

  predicate VoidIsMirrored(m: Mirror, id: Id, reply: Reply, m': Mirror)
    requires id in m.payments
  {
    var p := m.payments[id];
    if p.status != Authorized then reply == Ignored && m' == m
    else if VoidEvent(p, id) in m.events then reply == AlreadyStored && m' == m
    else
      reply == Applied && m' == Mirror(m.payments[id := p.(status := Voided)], m.events + {VoidEvent(p, id)})
  }

  lemma {:induction false} VoidDelivered(m: Mirror, w: Webhook, reply: Reply, m': Mirror)
    requires DeliverMeans(m, w, reply, m') && w.transactionId in m.payments
    requires w.event == B.StatusLabel(Voided) && w.status == B.StatusLabel(Voided)
    ensures VoidIsMirrored(m, w.transactionId, reply, m')
  {
    assert LabelText(w.event) == "voided";
    var stem := "webhook_" + w.transactionId;
    assert stem + "_transaction." + "voided" == stem + "_transaction.voided";
  }

  lemma {:induction false} SentVoid(hs: seq<Happening>, w: Webhook)
    requires w in Story(hs).ledger.book.sent && w.status == B.StatusLabel(Voided)
    ensures w.event == B.StatusLabel(Voided)
    ensures var b, id := Story(hs).ledger.book, w.transactionId; id in b.txs && b.txs[id].status == Voided
  {
    var es := LedgerHalf(hs);
    LT.RunsSound(es);
    assert P.Truthful(Story(hs).ledger.book, w);
  }

  /** In every story: a void webhook that was sent tells of a row that is voided for good; handled undisturbed, it makes
      an authorized payment voided, leaves its balance, and stores the event; on any other status it is ignored. */
  lemma {:induction false} SentVoidIsMirrored(hs: seq<Happening>, sid: Id, w: Webhook) returns (hs': seq<Happening>)
    requires w in Story(hs).ledger.book.sent && w.status == B.StatusLabel(Voided)
    requires w.transactionId in Story(hs).merchant.mirror.payments && Undisturbed(Story(hs).merchant, sid, w)
    ensures var b, id := Story(hs).ledger.book, w.transactionId; id in b.txs && b.txs[id].status == Voided
    ensures
      var l, l' := Story(hs).merchant, Story(hs').merchant;
      && hs <= hs' && |l'.history| == |l.history| + 1 && l'.history[|l.history|].op == Deliver(w)
      && VoidIsMirrored(l.mirror, w.transactionId, l'.history[|l.history|].reply, l'.mirror)
  {
    SentVoid(hs, w);
    hs' := Handled(hs, sid, w);
    var l, l' := Story(hs).merchant, Story(hs').merchant;
    SoloEnds(l, sid, w);
    VoidDelivered(l.mirror, w, l'.history[|l.history|].reply, l'.mirror);
  }

  // A story in which it happens.

  lemma {:induction false} ProviderOnly(es: seq<L.Event>) returns (hs: seq<Happening>)
    ensures Story(hs) == START.(ledger := L.Run(L.INIT, es))
  {
    if es == [] {
      hs := [];
    } else {
      hs := ProviderOnly(es[..|es| - 1]);
      hs := Extend(hs, Provider(es[|es| - 1]));
    }
  }

  const PAID := B.Webhook(B.StatusLabel(Refunded), "t", "r", B.StatusLabel(Refunded), 100)

  lemma {:induction false} RefundAsked() returns (es: seq<L.Event>)
    ensures var l := L.Run(L.INIT, es);
      && "t" in l.book.txs && l.book.txs["t"].amount == 100 && l.locks.holder == map[]
      && l.book.refunds == map["r" := Refund("t", 100, RefundPending, "rk")] && B.JobPhase(l.book, "r") == B.AtBank
  {
    es := LW.SettledSale();
    es := LW.RefundAll(es);
  }

  /** The provider captures and settles a sale, refunds all of it, and reports that. */
  lemma {:induction false} PaidBack() returns (es: seq<L.Event>)
    ensures var b := L.Run(L.INIT, es).book; PAID in b.sent && "t" in b.txs && b.txs["t"].amount == 100
  {
    es := RefundAsked();
    es := LW.AloneStep(es, B.RefundDoes("r", B.RefundBank(true)));
    es := LW.AloneStep(es, B.RefundDoes("r", B.RefundWrite));
    es := LW.AloneStep(es, B.RefundDoes("r", B.RefundNotify));
  }

  const MINE := Payment("p", 100, Authorized, 0)

  /** The merchant stores the payment when it is authorized and marks it when the capture is accepted. */
  lemma {:induction false} PaymentPending() returns (hs: seq<Happening>)
    ensures PAID in Story(hs).ledger.book.sent && Story(hs).merchant.sessions == map[]
    ensures Story(hs).merchant.locks.holder == map[]
    ensures Story(hs).merchant.mirror == Mirror(map["t" := MINE.(status := CapturePending)], {})
    ensures Credited(Story(hs).merchant.history, "t") == map[]
  {
    var es := PaidBack();
    var h0 := ProviderOnly(es);
    var h1 := Extend(h0, Merchant(Alone(Create("t", MINE))));
    hs := Extend(h1, Merchant(Alone(MarkUnguarded("t", false))));
  }

  lemma {:induction false} MirrorIsHistory(hs: seq<Happening>)
    ensures After(Story(hs).merchant.history) == Story(hs).merchant.mirror
  {
    var ms := MerchantHalf(hs);
    Linearizable(ms);
  }

  lemma PaidDelivered(m: Mirror)
    requires m == Mirror(map["t" := MINE.(status := CapturePending)], {})
    ensures DoDeliver(m, PAID).reply == Applied
    ensures DoDeliver(m, PAID).mirror.payments == map["t" := Payment("p", 100, Refunded, 100)]
  {}

  /** The sale is settled and refunded at the provider, but the merchant's payment goes from capture_pending
      straight to refunded. */
  lemma {:induction false} PendingBecomesRefunded() returns (hs: seq<Happening>, i: nat)
    ensures var h := Story(hs).merchant.history;
      && i < |h| && AppliesRefund(h[i]) && Credited(h[..i], "t") == map[]
      && After(h[..i]).payments == map["t" := MINE.(status := CapturePending)]
      && After(h[..i + 1]).payments == map["t" := Payment("p", 100, Refunded, 100)]
      && !CanTransitionTo(CapturePending, Refunded)
  {
    var before := PaymentPending();
    var l := Story(before).merchant;
    hs := Handled(before, "s", PAID);
    SoloDelivery(l, "s", PAID);
    PaidDelivered(l.mirror);
    var h := Story(hs).merchant.history;
    i := |l.history|;
    assert h[..i] == l.history && h[..i + 1] == h;
    MirrorIsHistory(before);
    MirrorIsHistory(hs);
  }
}
