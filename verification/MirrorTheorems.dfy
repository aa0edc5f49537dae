/** The mirror counts each refund once, however often, in whatever order, and however concurrently
    its webhook is handled. */
module MirrorTheorems {
  import opened Base
  import opened Transactions
  import opened RowStore
  import opened Mirror
  import opened MirrorProofs

  /** The entry that credits refund `rid` to the payment of transaction `id`. */
  predicate Credits(en: Entry, id: Id, rid: Id) {
    && en.reply == Applied && en.op.Deliver? && IsRefund(en.op.webhook)
    && en.op.webhook.transactionId == id && en.op.webhook.refundId == rid
  }

  /** The refunds whose webhooks were committed, by refund id. */
  function Credited(h: seq<Entry>, id: Id): map<Id, int> {
    if h == [] then map[]
    else
      var en := h[|h| - 1];
      var before := Credited(h[..|h| - 1], id);
      if en.op.Deliver? && Credits(en, id, en.op.webhook.refundId)
      then before[en.op.webhook.refundId := en.op.webhook.amount]
      else before
  }

  function RefundKey(id: Id, rid: Id): string {
    "webhook_" + id + "_transaction." + StatusText(Refunded) + "_" + rid
  }

  lemma RefundKeysDiffer(id: Id, a: Id, b: Id)
    requires RefundKey(id, a) == RefundKey(id, b)
    ensures a == b
  {
    var prefix := "webhook_" + id + "_transaction." + StatusText(Refunded) + "_";
    assert RefundKey(id, a) == prefix + a && RefundKey(id, b) == prefix + b;
    assert a == (prefix + a)[|prefix|..] && b == (prefix + b)[|prefix|..];
  }

  /** The payment of `id` carries exactly the credited refunds, and each of them has its event stored. */
  ghost predicate Accounted(m: Mirror, h: seq<Entry>, id: Id) {
    if id in m.payments then
      && m.payments[id].refundedAmount == Total(Credited(h, id))
      && forall rid :: rid in Credited(h, id) ==> EventKey(m.payments[id].id, RefundKey(id, rid)) in m.events
    else Credited(h, id) == map[]
  }

  /** New payments start without refunds. */
  predicate FreshPayments(h: seq<Entry>) {
    forall i :: 0 <= i < |h| && h[i].op.Create? ==> JustCreated(h[i].op.payment)
  }

  lemma {:induction false} AccountedStep(h: seq<Entry>, en: Entry, id: Id)
    requires Accounted(After(h), h, id) && Do(After(h), en.op).reply == en.reply
    requires en.op.Create? ==> JustCreated(en.op.payment)
    ensures Accounted(Do(After(h), en.op).mirror, h + [en], id)
    ensures forall rid :: Credits(en, id, rid) ==> rid !in Credited(h, id)
  {
    assert (h + [en])[..|h|] == h;
    if en.op.Deliver? && en.reply == Applied && IsRefund(en.op.webhook) && en.op.webhook.transactionId == id {
      CreditStep(h, en.op.webhook);
    }
  }

  lemma {:induction false} CreditStep(h: seq<Entry>, w: Webhook)
    requires Accounted(After(h), h, w.transactionId) && IsRefund(w) && DoDeliver(After(h), w).reply == Applied
    ensures w.refundId !in Credited(h, w.transactionId)
    ensures Accounted(DoDeliver(After(h), w).mirror, h + [Entry(Deliver(w), Applied)], w.transactionId)
  {
    var id := w.transactionId;
    var m, m' := After(h), DoDeliver(After(h), w).mirror;
    assert (h + [Entry(Deliver(w), Applied)])[..|h|] == h;
    assert EventOf(m.payments[id], w) == EventKey(m.payments[id].id, RefundKey(id, w.refundId));
    TotalAdd(Credited(h, id), w.refundId, w.amount);
  }

  lemma {:induction false} AlwaysAccounted(h: seq<Entry>, id: Id)
    requires Honest(h) && FreshPayments(h)
    ensures Accounted(After(h), h, id)
  {
    if h == [] {
    } else {
      AlwaysAccounted(h[..|h| - 1], id);
      assert h == h[..|h| - 1] + [h[|h| - 1]];
      AccountedStep(h[..|h| - 1], h[|h| - 1], id);
    }
  }

  lemma {:induction false} Prefixes(h: seq<Entry>, n: nat)
    requires n <= |h| && Honest(h) && FreshPayments(h)
    ensures Honest(h[..n]) && FreshPayments(h[..n])
  {
    if n == |h| {
      assert h[..n] == h;
    } else {
      assert h[..|h| - 1][..n] == h[..n];
      Prefixes(h[..|h| - 1], n);
    }
  }

  /** Creations of a run start without refunds. */
  predicate CleanCreations(es: seq<Event>) {
    forall i :: 0 <= i < |es| && es[i].Alone? && es[i].op.Create? ==> JustCreated(es[i].op.payment)
  }

  lemma OnlyCreationsCreate(l: State, e: Event)
    requires |Step(l, e).history| == |l.history| + 1
    requires var en := Step(l, e).history[|l.history|]; en.op.Create?
    ensures e.Alone? && e.op == Step(l, e).history[|l.history|].op
  {}

  lemma StepStartsClean(l: State, e: Event)
    requires Explained(l, Step(l, e)) && FreshPayments(l.history)
    requires e.Alone? && e.op.Create? ==> JustCreated(e.op.payment)
    ensures FreshPayments(Step(l, e).history)
  {
    var l' := Step(l, e);
    if l'.history != l.history {
      assert l'.history == l.history + [l'.history[|l.history|]];
      if l'.history[|l.history|].op.Create? { OnlyCreationsCreate(l, e); }
    }
  }

  lemma {:induction false} RunsStartClean(es: seq<Event>)
    requires CleanCreations(es)
    ensures FreshPayments(Run(INIT, es).history)
  {
    if es != [] {
      var most := es[..|es| - 1];
      RunsStartClean(most);
      Linearizable(most);
      StepExplained(Run(INIT, most), es[|es| - 1]);
      StepStartsClean(Run(INIT, most), es[|es| - 1]);
    }
  }

  /** In every run, with any webhooks delivered any number of times by concurrent handlers, a payment's
      balance is the sum over the distinct refunds whose webhook committed. */
  lemma {:induction false} ExactlyOnceEffect(es: seq<Event>, id: Id)
    requires CleanCreations(es) && id in Run(INIT, es).mirror.payments
    ensures var l := Run(INIT, es); l.mirror.payments[id].refundedAmount == Total(Credited(l.history, id))
  {
    Linearizable(es);
    RunsStartClean(es);
    AlwaysAccounted(Run(INIT, es).history, id);
  }

  lemma {:induction false} CreditStays(h: seq<Entry>, i: nat, id: Id, rid: Id)
    requires i < |h| && Credits(h[i], id, rid)
    ensures rid in Credited(h, id)
  {
    if i < |h| - 1 { CreditStays(h[..|h| - 1], i, id, rid); }
  }

  /** No two entries of a run credit the same refund. */
  lemma {:induction false} CreditedOnce(es: seq<Event>, i: nat, j: nat, id: Id, rid: Id)
    requires CleanCreations(es)
    requires var h := Run(INIT, es).history; i < j < |h| && Credits(h[i], id, rid)
    ensures !Credits(Run(INIT, es).history[j], id, rid)
  {
    var h := Run(INIT, es).history;
    Linearizable(es);
    RunsStartClean(es);
    Prefixes(h, j + 1);
    PrefixOfPrefix(h, j);
    AlwaysAccounted(h[..j], id);
    CreditStays(h[..j], i, id, rid);
    AccountedStep(h[..j], h[j], id);
  }

  /** A refunded mirror has been credited at least the whole amount. */
  predicate Exhausted(m: Mirror) {
    forall id :: id in m.payments && m.payments[id].status == Refunded ==>
      m.payments[id].refundedAmount >= m.payments[id].amount
  }

  lemma ExhaustedStep(m: Mirror, op: Op)
    requires Exhausted(m) && (op.Create? ==> JustCreated(op.payment))
    ensures Exhausted(Do(m, op).mirror)
  {}

  lemma {:induction false} RefundedMeansExhausted(h: seq<Entry>)
    requires FreshPayments(h)
    ensures Exhausted(After(h))
  {
    if h != [] {
      RefundedMeansExhausted(h[..|h| - 1]);
      ExhaustedStep(After(h[..|h| - 1]), h[|h| - 1].op);
    }
  }

  /** Nobody holds the payment's row, and nobody is about to store the same event. */
  predicate Undisturbed(l: State, sid: Id, w: Webhook) {
    && sid !in l.sessions && w.transactionId !in l.locks.holder
    && (w.transactionId in l.mirror.payments ==> !EventInFlight(l, EventOf(l.mirror.payments[w.transactionId], w)))
  }

  /** Undisturbed, a handler does exactly what the atomic form of the webhook does. */
  lemma SoloDelivery(l: State, sid: Id, w: Webhook)
    requires Undisturbed(l, sid, w)
    ensures var l' := DoCommit(DoInsertEvent(DoUpdateRow(DoBegin(l, sid, w), sid), sid), sid);
      && l'.mirror == DoDeliver(l.mirror, w).mirror && l'.sessions == l.sessions
      && l'.history == l.history + [Entry(Deliver(w), DoDeliver(l.mirror, w).reply)]
  {
    var id := w.transactionId;
    if id in l.mirror.payments && PlanFor(l.mirror.payments[id], w).Write? {
      var s := Session(w, l.mirror.payments[id], Version(l.locks, id), Reading);
      var l2 := WriteRow(Open(l, sid, s), sid);
      assert DoUpdateRow(DoBegin(l, sid, w), sid) == l2;
      SoloWritten(l, sid, s);
    }
  }

  lemma SoloWritten(l: State, sid: Id, s: Session)
    requires sid !in l.sessions && s.w.transactionId in l.mirror.payments && PlanFor(s.seen, s.w).Write?
    requires s.seen == l.mirror.payments[s.w.transactionId] && s.stage.Reading?
    requires !EventInFlight(l, EventOfSession(s))
    ensures var l' := DoCommit(DoInsertEvent(WriteRow(Open(l, sid, s), sid), sid), sid);
      && l'.mirror == DoDeliver(l.mirror, s.w).mirror && l'.sessions == l.sessions
      && l'.history == l.history + [Entry(Deliver(s.w), DoDeliver(l.mirror, s.w).reply)]
  {
    var l2 := WriteRow(Open(l, sid, s), sid);
    assert !EventInFlight(l2, EventOfSession(s));
    assert l2.sessions - {sid} == l.sessions;
    assert l2.sessions[sid := l2.sessions[sid].(stage := Inserted)] - {sid} == l.sessions;
  }

  /** The payment life cycle is kept by an unguarded write exactly on authorized payments, and by a refund webhook,
      which checks no transition, exactly on captured and partially refunded ones; other webhooks always keep it. */
  lemma KeepsTheTableIff(m: Mirror, op: Op)
    requires !op.Create? && Do(m, op).reply == Applied
    ensures
      var id := if op.Deliver? then op.webhook.transactionId else op.id;
      var from, target := m.payments[id].status, Do(m, op).mirror.payments[id].status;
      CanTransitionTo(from, target) <==>
        if op.MarkUnguarded? then from == Authorized
        else IsRefund(op.webhook) ==> from == Captured || from == PartiallyRefunded
    ensures
      var id := if op.Deliver? then op.webhook.transactionId else op.id;
      Do(m, op).mirror.payments == m.payments[id := Do(m, op).mirror.payments[id]]
  {}
}
