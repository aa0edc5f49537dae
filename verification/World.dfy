/** Provider and merchant together: webhooks the provider has sent may reach the merchant's handlers
    any number of times, in any order, late, or never. */
module World {
  import opened Base
  import opened Transactions
  import B = Book
  import P = BookProofs
  import L = Ledger
  import LT = LedgerTheorems
  import LM = LedgerMoney
  import opened RowStore
  import opened Mirror
  import opened MirrorProofs
  import opened MirrorTheorems

  datatype Happening = Provider(pe: L.Event) | Merchant(me: Event)

  datatype World = World(ledger: L.Ledger, merchant: State)

  const START := World(L.INIT, INIT)

  /** A handler can only start on a webhook that was sent, and CreatePayment stores the amount it authorized. */
  predicate Allowed(w: World, me: Event) {
    match me
    case Begin(_, webhook) => webhook in w.ledger.book.sent
    case Alone(Create(id, p)) => id in w.ledger.book.txs && p.amount == w.ledger.book.txs[id].amount && JustCreated(p)
    case _ => true
  }

  function Happens(w: World, h: Happening): World {
    match h
    case Provider(e) => w.(ledger := L.Step(w.ledger, e))
    case Merchant(e) => if Allowed(w, e) then w.(merchant := Step(w.merchant, e)) else w
  }

  function Story(hs: seq<Happening>): World {
    if hs == [] then START else Happens(Story(hs[..|hs| - 1]), hs[|hs| - 1])
  }

  // Both halves are runs of their own machines.

  lemma {:induction false} LedgerHalf(hs: seq<Happening>) returns (es: seq<L.Event>)
    ensures Story(hs).ledger == L.Run(L.INIT, es)
  {
    if hs == [] {
      es := [];
    } else {
      es := LedgerHalf(hs[..|hs| - 1]);
      match hs[|hs| - 1]
      case Provider(e) =>
        assert (es + [e])[..|es|] == es;
        es := es + [e];
      case Merchant(_) =>
    }
  }

  lemma CleanAppend(es: seq<Event>, e: Event)
    requires CleanCreations(es) && (e.Alone? && e.op.Create? ==> JustCreated(e.op.payment))
    ensures CleanCreations(es + [e])
  {}

  lemma {:induction false} MerchantHalf(hs: seq<Happening>) returns (es: seq<Event>)
    ensures Story(hs).merchant == Run(INIT, es) && CleanCreations(es)
  {
    if hs == [] {
      es := [];
    } else {
      es := MerchantHalf(hs[..|hs| - 1]);
      match hs[|hs| - 1]
      case Provider(_) =>
      case Merchant(e) =>
        if Allowed(Story(hs[..|hs| - 1]), e) {
          CleanAppend(es, e);
          assert (es + [e])[..|es|] == es;
          es := es + [e];
        }
    }
  }

  // What the merchant knows comes from the provider.

  /** Every webhook in a handler's hands or on record was sent. */
  predicate Genuine(l: State, sent: set<Webhook>) {
    && (forall sid :: sid in l.sessions ==> l.sessions[sid].w in sent)
    && (forall en :: en in l.history && en.op.Deliver? ==> en.op.webhook in sent)
  }

  /** Mirrored payments carry the amount of their transaction. */
  predicate SameAmounts(m: Mirror, b: B.Book) {
    forall id :: id in m.payments ==> id in b.txs && m.payments[id].amount == b.txs[id].amount
  }

  lemma SentGrows(l: L.Ledger, e: L.Event)
    ensures l.book.sent <= L.Step(l, e).book.sent
  {
    match e
    case Alone(op) => DoSendsMore(l.book, op);
    case _ =>
  }

  lemma DoSendsMore(b: B.Book, op: B.Op)
    ensures b.sent <= B.Do(b, op).book.sent
  {
    match op
    case SettleDoes(id, step) => SettleSendsMore(b, id, step);
    case RefundDoes(rid, step) => RefundSendsMore(b, rid, step);
    case _ =>
  }

  lemma SettleSendsMore(b: B.Book, id: Id, step: B.SettleStep)
    ensures b.sent <= B.DoSettle(b, id, step).book.sent
  {}

  lemma RefundSendsMore(b: B.Book, rid: Id, step: B.RefundStep)
    ensures b.sent <= B.DoRefundJob(b, rid, step).book.sent
  {}

  lemma GenuineStep(l: State, e: Event, sent: set<Webhook>)
    requires Genuine(l, sent) && Explained(l, Step(l, e)) && (e.Begin? ==> e.w in sent)
    ensures Genuine(Step(l, e), sent)
  {
    HandlersStayGenuine(l, e, sent);
    var l' := Step(l, e);
    if l'.history != l.history {
      assert l'.history == l.history + [l'.history[|l.history|]];
      RecordStaysGenuine(l, e, sent);
    }
  }

  lemma HandlersStayGenuine(l: State, e: Event, sent: set<Webhook>)
    requires forall sid :: sid in l.sessions ==> l.sessions[sid].w in sent
    requires e.Begin? ==> e.w in sent
    ensures forall sid :: sid in Step(l, e).sessions ==> Step(l, e).sessions[sid].w in sent
  {}

  lemma RecordStaysGenuine(l: State, e: Event, sent: set<Webhook>)
    requires forall sid :: sid in l.sessions ==> l.sessions[sid].w in sent
    requires (e.Begin? ==> e.w in sent) && |Step(l, e).history| == |l.history| + 1
    ensures var en := Step(l, e).history[|l.history|]; en.op.Deliver? ==> en.op.webhook in sent
  {}

  lemma AmountsStep(m: Mirror, op: Op, b: B.Book)
    requires SameAmounts(m, b)
    requires op.Create? ==> op.id in b.txs && op.payment.amount == b.txs[op.id].amount
    ensures SameAmounts(Do(m, op).mirror, b)
  {}

  lemma AmountsMerchantStep(w: World, e: Event)
    requires SameAmounts(w.merchant.mirror, w.ledger.book) && Allowed(w, e)
    requires Explained(w.merchant, Step(w.merchant, e))
    ensures SameAmounts(Step(w.merchant, e).mirror, w.ledger.book)
  {
    var l, l' := w.merchant, Step(w.merchant, e);
    if l'.history != l.history {
      var op := l'.history[|l.history|].op;
      if op.Create? { OnlyCreationsCreate(l, e); }
      AmountsStep(l.mirror, op, w.ledger.book);
    }
  }

  lemma {:induction false} StoryHolds(hs: seq<Happening>)
    ensures var w := Story(hs); Genuine(w.merchant, w.ledger.book.sent) && SameAmounts(w.merchant.mirror, w.ledger.book)
  {
    if hs != [] {
      var most := hs[..|hs| - 1];
      var w := Story(most);
      StoryHolds(most);
      match hs[|hs| - 1]
      case Provider(e) =>
        var es := LedgerHalf(most);
        LM.StatusHistory(es, e);
        SentGrows(w.ledger, e);
      case Merchant(e) =>
        var es := MerchantHalf(most);
        Linearizable(es);
        StepExplained(w.merchant, e);
        if Allowed(w, e) {
          GenuineStep(w.merchant, e, w.ledger.book.sent);
          AmountsMerchantStep(w, e);
        }
    }
  }

  // The bound.

  /** Everything credited was paid by the bank, for the same transaction and amount. */
  lemma {:induction false} CreditsWerePaid(h: seq<Entry>, b: B.Book, id: Id)
    requires P.Wire(b) && forall en :: en in h && en.op.Deliver? ==> en.op.webhook in b.sent
    ensures var paid := LM.OfStatus(b, id, RefundDone);
      forall rid :: rid in Credited(h, id) ==> rid in paid && Credited(h, id)[rid] == paid[rid]
  {
    if h != [] {
      CreditsWerePaid(h[..|h| - 1], b, id);
      var en := h[|h| - 1];
      assert en in h;
      if en.op.Deliver? { assert en.op.webhook in b.sent ==> P.Truthful(b, en.op.webhook); }
    }
  }

  lemma PaidIsNonNegative(b: B.Book, id: Id)
    requires P.Refunds(b)
    ensures NonNegative(LM.OfStatus(b, id, RefundDone))
  {}

  /** With webhooks lost, duplicated, reordered and handled concurrently: the mirror never shows more refunded than
      the provider has paid, which is never more than the amount; and a mirror that says refunded is right. */
  lemma {:induction false} CrossServiceBound(hs: seq<Happening>, id: Id)
    requires id in Story(hs).merchant.mirror.payments
    ensures var w := Story(hs); var p, b := w.merchant.mirror.payments[id], w.ledger.book;
      && id in b.txs && p.amount == b.txs[id].amount
      && 0 <= p.refundedAmount <= Total(LM.OfStatus(b, id, RefundDone)) <= b.txs[id].amount
      && (p.status == Refunded ==> b.txs[id].status == Refunded)
  {
    var w := Story(hs);
    var b := w.ledger.book;
    var es := LedgerHalf(hs);
    var ms := MerchantHalf(hs);
    StoryHolds(hs);
    LT.RunsSound(es);
    ExactlyOnceEffect(ms, id);
    CreditsWerePaid(w.merchant.history, b, id);
    PaidIsNonNegative(b, id);
    TotalMonotone(Credited(w.merchant.history, id), LM.OfStatus(b, id, RefundDone));
    LM.PaidWithin(b, id);
    RefundedIsExhausted(ms, id);
    if w.merchant.mirror.payments[id].status == Refunded { LM.FullyPaidIsRefunded(b, id); }
  }

  lemma {:induction false} RefundedIsExhausted(ms: seq<Event>, id: Id)
    requires CleanCreations(ms) && id in Run(INIT, ms).mirror.payments
    ensures var p := Run(INIT, ms).mirror.payments[id]; p.status == Refunded ==> p.refundedAmount >= p.amount
  {
    Linearizable(ms);
    RunsStartClean(ms);
    RefundedMeansExhausted(Run(INIT, ms).history);
  }
}
