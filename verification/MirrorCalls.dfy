/** What every webhook does to the merchant's mirror, field by field, and that nothing keeps it from doing so. */
module MirrorCalls {
  import opened Base
  import opened Transactions
  import opened RowStore
  import opened Mirror
  import opened MirrorProofs
  import opened MirrorTheorems
  import Book

  predicate Refuses(m: Mirror, reply: Reply, m': Mirror, why: Reply) {
    reply == why && m' == m
  }

  /** The payment becomes `p` and the event is stored, unless it was stored before. */
  predicate AppliesOnce(m: Mirror, id: Id, p: Payment, key: EventKey, reply: Reply, m': Mirror) {
    if key in m.events then Refuses(m, reply, m', AlreadyStored)
    else reply == Applied && m' == Mirror(m.payments[id := p], m.events + {key})
  }

  /** A refund is credited whatever the status; the other known webhooks move the payment from the one status they may
      leave, and are ignored on any other. */
  predicate DeliverMeans(m: Mirror, w: Webhook, reply: Reply, m': Mirror) {
    var id := w.transactionId;
    var stem := "webhook_" + id + "_transaction.";
    if id !in m.payments then Refuses(m, reply, m', UnknownPayment)
    else
      var p := m.payments[id];
      if w.event == Book.StatusLabel(Refunded) then
        var total := p.refundedAmount + w.amount;
        var p' := p.(refundedAmount := total, status := if total < p.amount then PartiallyRefunded else Refunded);
        AppliesOnce(m, id, p', EventKey(p.id, stem + "refunded_" + w.refundId), reply, m')
      else
        var key := EventKey(p.id, stem + LabelText(w.event));
        match w.status
        case StatusLabel(Captured) =>
          if p.status == CapturePending then AppliesOnce(m, id, p.(status := Captured), key, reply, m')
          else Refuses(m, reply, m', Ignored)
        case StatusLabel(CaptureFailed) =>
          if p.status == CapturePending then AppliesOnce(m, id, p.(status := CaptureFailed), key, reply, m')
          else Refuses(m, reply, m', Ignored)
        case StatusLabel(Voided) =>
          if p.status == Authorized then AppliesOnce(m, id, p.(status := Voided), key, reply, m')
          else Refuses(m, reply, m', Ignored)
        case RefundFailedLabel => Refuses(m, reply, m', Ignored)
        case _ => Refuses(m, reply, m', UnknownStatus)
  }

  /** Two payments never share a transaction nor an id. */
  predicate CreateMeans(m: Mirror, id: Id, p: Payment, reply: Reply, m': Mirror) {
    if id in m.payments || exists other :: other in m.payments && m.payments[other].id == p.id
    then Refuses(m, reply, m', AlreadyStored)
    else reply == Applied && m' == m.(payments := m.payments[id := p])
  }

  predicate MarkMeans(m: Mirror, id: Id, voided: bool, reply: Reply, m': Mirror) {
    if id !in m.payments then Refuses(m, reply, m', UnknownPayment)
    else
      var p := m.payments[id].(status := if voided then Voided else CapturePending);
      reply == Applied && m' == m.(payments := m.payments[id := p])
  }

  predicate Means(m: Mirror, en: Entry, m': Mirror) {
    match en.op
    case Create(id, p) => CreateMeans(m, id, p, en.reply, m')
    case MarkUnguarded(id, voided) => MarkMeans(m, id, voided, en.reply, m')
    case Deliver(w) => DeliverMeans(m, w, en.reply, m')
  }

  lemma DeliverDoes(m: Mirror, w: Webhook)
    ensures var o := DoDeliver(m, w); DeliverMeans(m, w, o.reply, o.mirror)
  {
    var stem := "webhook_" + w.transactionId + "_transaction.";
    if IsRefund(w) { assert KeyText(w) == stem + "refunded_" + w.refundId; }
  }

  lemma DoMeans(m: Mirror, op: Op)
    ensures var o := Do(m, op); Means(m, Entry(op, o.reply), o.mirror)
  {
    match op
    case Create(id, p) =>
    case MarkUnguarded(_, _) =>
    case Deliver(w) => DeliverDoes(m, w);
  }

  /** In every interleaving, every entry on record did this to the mirror that the entries before it left. */
  lemma {:induction false} EveryEntryMeans(es: seq<Event>, i: nat)
    requires i < |Run(INIT, es).history|
    ensures var h := Run(INIT, es).history; Means(After(h[..i]), h[i], After(h[..i + 1]))
  {
    var h := Run(INIT, es).history;
    Linearizable(es);
    HonestAt(h, i);
    PrefixOfPrefix(h, i);
    DoMeans(After(h[..i]), h[i].op);
  }

  lemma {:induction false} HonestAt(h: seq<Entry>, i: nat)
    requires Honest(h) && i < |h|
    ensures Do(After(h[..i]), h[i].op).reply == h[i].reply
  {
    if i < |h| - 1 {
      assert h[..|h| - 1][..i] == h[..i];
      HonestAt(h[..|h| - 1], i);
    } else {
      assert h[..i] == h[..|h| - 1];
    }
  }

  // Handlers that nobody disturbs.

  function Statements(sid: Id, w: Webhook): seq<Event> {
    [Begin(sid, w)] + [UpdateRow(sid)] + [InsertEvent(sid)] + [Commit(sid)]
  }

  predicate Ends(l: State, l': State, w: Webhook) {
    && |l'.history| == |l.history| + 1 && l'.history[..|l.history|] == l.history
    && l'.history[|l.history|].op == Deliver(w)
    && DeliverMeans(l.mirror, w, l'.history[|l.history|].reply, l'.mirror)
    && l'.sessions == l.sessions
  }

  lemma {:induction false} SoloEnds(l: State, sid: Id, w: Webhook)
    requires Undisturbed(l, sid, w)
    ensures Ends(l, DoCommit(DoInsertEvent(DoUpdateRow(DoBegin(l, sid, w), sid), sid), sid), w)
  {
    SoloDelivery(l, sid, w);
    DeliverDoes(l.mirror, w);
  }

  lemma {:induction false} RunOne(es: seq<Event>, e: Event)
    ensures Run(INIT, es + [e]) == Step(Run(INIT, es), e)
  {
    assert (es + [e])[..|es|] == es;
  }

  lemma {:induction false} RunStatements(es: seq<Event>, sid: Id, w: Webhook)
    ensures Run(INIT, es + Statements(sid, w))
         == DoCommit(DoInsertEvent(DoUpdateRow(DoBegin(Run(INIT, es), sid, w), sid), sid), sid)
  {
    var a, b, c, d := Begin(sid, w), UpdateRow(sid), InsertEvent(sid), Commit(sid);
    RunOne(es, a);
    RunOne(es + [a], b);
    RunOne(es + [a] + [b], c);
    RunOne(es + [a] + [b] + [c], d);
    assert es + Statements(sid, w) == es + [a] + [b] + [c] + [d];
  }

  /** In every run, on every payment whose row nobody holds: the statements of a handler end as said. */
  lemma {:induction false} UndisturbedDelivery(es: seq<Event>, sid: Id, w: Webhook)
    requires Undisturbed(Run(INIT, es), sid, w)
    ensures Ends(Run(INIT, es), Run(INIT, es + Statements(sid, w)), w)
  {
    RunStatements(es, sid, w);
    SoloEnds(Run(INIT, es), sid, w);
  }
}
