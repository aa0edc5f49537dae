/** Which webhooks get a row of the inbox, and what becomes of the payment webhooks among them. */
module InboxKeys {
  import opened Base
  import opened Inbox
  import opened InboxProofs
  import opened InboxTheorems

  const ORDER_PREFIX := "order_update:"
  const DISPUTE_PREFIX := "dispute_update:"
  const PAYMENT_PREFIX := "payment_webhook:"

  /** A payment webhook is keyed by its transaction and event only. */
  function KeyOf(w: Webhook): string {
    match w
    case Order(eventId) => ORDER_PREFIX + eventId
    case Dispute(eventId) => DISPUTE_PREFIX + eventId
    case Payment(transactionId, event, _) => PAYMENT_PREFIX + transactionId + ":" + event
  }

  function KindOf(w: Webhook): Kind {
    match w
    case Order(_) => OrderUpdate
    case Dispute(_) => DisputeUpdate
    case Payment(_, _, _) => OtherKind
  }

  /** What the receiving handlers store. */
  function Received(id: Id, w: Webhook, at: int): Event {
    Store(id, KeyOf(w), KindOf(w), Some(w), at)
  }

  // Keys.

  /** The same but, perhaps, for the refund. */
  predicate SameOccasion(a: Webhook, b: Webhook) {
    match a
    case Payment(transactionId, event, _) => b.Payment? && b.transactionId == transactionId && b.event == event
    case _ => a == b
  }

  /** The provider's event names contain no colon; transaction ids may be any text. */
  predicate PlainEvent(w: Webhook) {
    w.Payment? ==> ':' !in w.event
  }

  lemma {:induction false} CancelPrefix(prefix: string, a: string, b: string)
    requires prefix + a == prefix + b
    ensures a == b
  {
    assert a == (prefix + a)[|prefix|..] && b == (prefix + b)[|prefix|..];
  }

  /** The last colon tells where the event begins. */
  lemma {:induction false} LastColonSplits(t: string, e: string, t': string, e': string)
    requires t + ":" + e == t' + ":" + e' && ':' !in e && ':' !in e'
    ensures t == t' && e == e'
  {
    var s := t + ":" + e;
    assert s[|t|] == ':' && s[|t'|] == ':';
    forall k | |t| < k < |s| ensures s[k] != ':' { assert s[k] == e[k - |t| - 1]; }
    forall k | |t'| < k < |s| ensures s[k] != ':' { assert s[k] == e'[k - |t'| - 1]; }
    assert t == s[..|t|] && t' == s[..|t'|] && e == s[|t| + 1..] && e' == s[|t'| + 1..];
  }

  lemma {:induction false} PrefixesDiffer(a: Webhook, b: Webhook)
    requires KeyOf(a) == KeyOf(b)
    ensures KindOf(a) == KindOf(b)
  {
    assert KeyOf(a)[0] == KeyOf(b)[0];
  }

  /** Two webhooks share a row exactly when they are of one type and carry one provider event id or, for payments, one
      transaction and event: the refund is not part of the key. */
  lemma {:induction false} KeysIdentifyWebhooks(a: Webhook, b: Webhook)
    requires PlainEvent(a) && PlainEvent(b)
    ensures KeyOf(a) == KeyOf(b) <==> SameOccasion(a, b)
  {
    if KeyOf(a) == KeyOf(b) {
      PrefixesDiffer(a, b);
      match a
      case Order(eventId) => CancelPrefix(ORDER_PREFIX, eventId, b.eventId);
      case Dispute(eventId) => CancelPrefix(DISPUTE_PREFIX, eventId, b.eventId);
      case Payment(t, e, _) =>
        assert KeyOf(a) == PAYMENT_PREFIX + (t + ":" + e);
        assert KeyOf(b) == PAYMENT_PREFIX + (b.transactionId + ":" + b.event);
        CancelPrefix(PAYMENT_PREFIX, t + ":" + e, b.transactionId + ":" + b.event);
        LastColonSplits(t, e, b.transactionId, b.event);
    }
  }

  /** With colons in event names, two transactions may share a key. */
  lemma ColonsConfuse()
    ensures var a, b := Payment("a:b", "c", ""), Payment("a", "b:c", ""); KeyOf(a) == KeyOf(b) && !SameOccasion(a, b)
  {
    assert KeyOf(Payment("a:b", "c", "")) == PAYMENT_PREFIX + "a:b:c";
    assert KeyOf(Payment("a", "b:c", "")) == PAYMENT_PREFIX + "a:b:c";
  }

  // Rows.

  predicate StoredAt(es: seq<Event>, i: nat, key: string) {
    i < |es| && es[i].Store? && es[i].key == key
  }

  predicate StoredBefore(es: seq<Event>, n: nat, key: string) {
    exists i: nat :: i < n && StoredAt(es, i, key)
  }

  /** The table gives every stored message an id of its own. */
  predicate FreshIds(es: seq<Event>) {
    forall i, j :: 0 <= i < j < |es| && es[i].Store? && es[j].Store? ==> es[i].id != es[j].id
  }

  /** The first message with its key. */
  predicate IsFirst(es: seq<Event>, i: nat) {
    i < |es| && es[i].Store? && !StoredBefore(es, i, es[i].key)
  }

  /** Event `i` put row `id` into the table. */
  predicate MadeBy(es: seq<Event>, rows: map<Id, Row>, id: Id, i: nat) {
    && IsFirst(es, i) && es[i].id == id && id in rows
    && rows[id].key == es[i].key && rows[id].kind == es[i].kind && rows[id].payload == es[i].payload
  }

  /** Every row was put in by the first message with its key, and every such message put one in. */
  ghost predicate RowsMatch(es: seq<Event>, rows: map<Id, Row>) {
    && (forall id :: id in rows ==> exists i: nat :: MadeBy(es, rows, id, i))
    && (forall i: nat :: IsFirst(es, i) ==> MadeBy(es, rows, es[i].id, i))
  }

  predicate SameMessage(a: Row, b: Row) {
    b.key == a.key && b.kind == a.kind && b.payload == a.payload
  }

  predicate SameMessages(rows: map<Id, Row>, rows': map<Id, Row>) {
    && rows.Keys == rows'.Keys
    && forall id :: id in rows ==> SameMessage(rows[id], rows'[id])
  }

  lemma WorkersKeepMessages(s: Inbox, e: Event)
    requires !e.Store?
    ensures SameMessages(s.rows, Step(s, e).rows)
  {}

  /** What is true of the last event's predecessors stays true of them. */
  lemma {:induction false} FirstsStay(es: seq<Event>, e: Event, i: nat)
    requires i < |es|
    ensures IsFirst(es + [e], i) <==> IsFirst(es, i)
  {
    var es' := es + [e];
    forall j: nat | j < i ensures es'[j] == es[j] {}
    if es[i].Store? {
      var key := es[i].key;
      if StoredBefore(es, i, key) {
        var j: nat :| j < i && StoredAt(es, j, key);
        assert StoredAt(es', j, key);
      }
      if StoredBefore(es', i, key) {
        var j: nat :| j < i && StoredAt(es', j, key);
        assert StoredAt(es, j, key);
      }
    }
  }

  lemma {:induction false} MadeByStays(
      es: seq<Event>, e: Event, rows: map<Id, Row>, rows': map<Id, Row>, id: Id, i: nat)
    requires i < |es| && MadeBy(es, rows, id, i)
    requires id in rows' && SameMessage(rows[id], rows'[id])
    ensures MadeBy(es + [e], rows', id, i)
  {
    FirstsStay(es, e, i);
  }

  lemma {:induction false} WorkersKeepMatch(es: seq<Event>, e: Event, rows: map<Id, Row>, rows': map<Id, Row>)
    requires RowsMatch(es, rows) && !e.Store? && SameMessages(rows, rows')
    ensures RowsMatch(es + [e], rows')
  {
    forall id | id in rows' ensures exists i: nat :: MadeBy(es + [e], rows', id, i) {
      var i: nat :| MadeBy(es, rows, id, i);
      MadeByStays(es, e, rows, rows', id, i);
    }
    forall i: nat | IsFirst(es + [e], i) ensures MadeBy(es + [e], rows', (es + [e])[i].id, i) {
      assert i < |es|;
      FirstsStay(es, e, i);
      MadeByStays(es, e, rows, rows', es[i].id, i);
    }
  }

  lemma {:induction false} FirstWith(es: seq<Event>, n: nat, key: string) returns (i: nat)
    requires n <= |es| && StoredBefore(es, n, key)
    ensures i < n && IsFirst(es, i) && es[i].key == key
  {
    i :| i < n && StoredAt(es, i, key);
    if StoredBefore(es, i, key) { i := FirstWith(es, i, key); }
  }

  /** A key is in the table exactly when a message with it has been stored. */
  lemma {:induction false} MatchMeansStored(es: seq<Event>, rows: map<Id, Row>, key: string)
    requires RowsMatch(es, rows)
    ensures KeyStored(rows, key) <==> StoredBefore(es, |es|, key)
  {
    if KeyStored(rows, key) {
      var id :| id in rows && rows[id].key == key;
      var i: nat :| MadeBy(es, rows, id, i);
      assert StoredAt(es, i, key);
    }
    if StoredBefore(es, |es|, key) {
      var i := FirstWith(es, |es|, key);
      assert MadeBy(es, rows, es[i].id, i);
    }
  }

  lemma {:induction false} LastIsFirst(es: seq<Event>, e: Event)
    requires e.Store?
    ensures IsFirst(es + [e], |es|) <==> !StoredBefore(es, |es|, e.key)
  {
    var es' := es + [e];
    if StoredBefore(es, |es|, e.key) {
      var j: nat :| j < |es| && StoredAt(es, j, e.key);
      assert StoredAt(es', j, e.key);
    }
    if StoredBefore(es', |es|, e.key) {
      var j: nat :| j < |es| && StoredAt(es', j, e.key);
      assert StoredAt(es, j, e.key);
    }
  }

  lemma {:induction false} StoreKeepsMatch(es: seq<Event>, e: Event, rows: map<Id, Row>, rows': map<Id, Row>)
    requires RowsMatch(es, rows) && e.Store? && e.id !in rows
    requires rows' == if KeyStored(rows, e.key) then rows else rows[e.id := NewRow(e.key, e.kind, e.payload, e.at)]
    ensures RowsMatch(es + [e], rows')
  {
    MatchMeansStored(es, rows, e.key);
    LastIsFirst(es, e);
    forall id | id in rows' ensures exists i: nat :: MadeBy(es + [e], rows', id, i) {
      if id in rows {
        var i: nat :| MadeBy(es, rows, id, i);
        MadeByStays(es, e, rows, rows', id, i);
      } else {
        assert MadeBy(es + [e], rows', id, |es|);
      }
    }
    forall i: nat | IsFirst(es + [e], i) ensures MadeBy(es + [e], rows', (es + [e])[i].id, i) {
      if i < |es| {
        FirstsStay(es, e, i);
        MadeByStays(es, e, rows, rows', es[i].id, i);
      }
    }
  }

  lemma {:induction false} RunsMatch(cfg: Config, es: seq<Event>)
    requires FreshIds(es)
    ensures RowsMatch(es, Run(INIT(cfg), es).rows)
  {
    if es != [] {
      var most, e := es[..|es| - 1], es[|es| - 1];
      var s := Run(INIT(cfg), most);
      RunsMatch(cfg, most);
      assert es == most + [e];
      if e.Store? {
        forall i: nat | i < |most| && most[i].Store? ensures most[i].id != e.id { assert es[i] == most[i]; }
        StoreKeepsMatch(most, e, s.rows, Step(s, e).rows);
      } else {
        WorkersKeepMessages(s, e);
        WorkersKeepMatch(most, e, s.rows, Step(s, e).rows);
      }
    }
  }

  /** In every run: a key is in the table exactly when a message with it was stored before. */
  lemma {:induction false} KeyStoredIff(cfg: Config, es: seq<Event>, key: string)
    requires FreshIds(es)
    ensures KeyStored(Run(INIT(cfg), es).rows, key) <==> StoredBefore(es, |es|, key)
  {
    RunsMatch(cfg, es);
    MatchMeansStored(es, Run(INIT(cfg), es).rows, key);
  }

  /** In every run a message has a row of its own, with its type and payload, if and only if no message with its key
      was stored before it. */
  lemma {:induction false} GetsARowIff(cfg: Config, es: seq<Event>, i: nat)
    requires FreshIds(es) && i < |es| && es[i].Store?
    ensures var rows := Run(INIT(cfg), es).rows;
      && (es[i].id in rows <==> !StoredBefore(es, i, es[i].key))
      && (es[i].id in rows ==>
            rows[es[i].id].key == es[i].key
            && rows[es[i].id].kind == es[i].kind
            && rows[es[i].id].payload == es[i].payload)
  {
    var rows := Run(INIT(cfg), es).rows;
    RunsMatch(cfg, es);
    if es[i].id in rows {
      var j: nat :| MadeBy(es, rows, es[i].id, j);
      assert i == j;
    }
    if !StoredBefore(es, i, es[i].key) { assert IsFirst(es, i); }
  }

  // Webhooks.

  /** Messages come from the receiving handlers. */
  predicate FromHandlers(es: seq<Event>) {
    forall e :: e in es && e.Store? ==>
      e.payload.Some? && PlainEvent(e.payload.value) && e == Received(e.id, e.payload.value, e.at)
  }

  predicate Arrives(es: seq<Event>, i: nat, w: Webhook) {
    i < |es| && es[i].Store? && es[i].payload == Some(w)
  }

  /** A webhook like `w`, refunds aside, is stored before event `n`. */
  ghost predicate Preceded(es: seq<Event>, n: nat, w: Webhook) {
    exists i: nat, other :: i < n && Arrives(es, i, other) && SameOccasion(other, w)
  }

  lemma {:induction false} PrecededMeansStored(es: seq<Event>, n: nat, w: Webhook)
    requires FromHandlers(es) && PlainEvent(w)
    ensures Preceded(es, n, w) <==> StoredBefore(es, n, KeyOf(w))
  {
    if Preceded(es, n, w) {
      var i: nat, other :| i < n && Arrives(es, i, other) && SameOccasion(other, w);
      assert es[i] in es;
      KeysIdentifyWebhooks(other, w);
      assert StoredAt(es, i, KeyOf(w));
    }
    if StoredBefore(es, n, KeyOf(w)) {
      var i: nat :| i < n && StoredAt(es, i, KeyOf(w));
      assert es[i] in es;
      KeysIdentifyWebhooks(es[i].payload.value, w);
      assert Arrives(es, i, es[i].payload.value);
    }
  }

  predicate Kept(rows: map<Id, Row>, w: Webhook) {
    exists id :: id in rows && rows[id].payload == Some(w)
  }

  /** In every run a webhook is in the inbox if and only if, at some time it arrived, none of the same type and event id
      or, for payments, of the same transaction and event had arrived before. */
  lemma {:induction false} WebhookIsKeptIff(cfg: Config, es: seq<Event>, w: Webhook)
    requires FreshIds(es) && FromHandlers(es)
    ensures Kept(Run(INIT(cfg), es).rows, w) <==> exists i: nat :: Arrives(es, i, w) && !Preceded(es, i, w)
  {
    var rows := Run(INIT(cfg), es).rows;
    RunsMatch(cfg, es);
    if Kept(rows, w) {
      var id :| id in rows && rows[id].payload == Some(w);
      var i: nat :| MadeBy(es, rows, id, i);
      assert es[i] in es;
      PrecededMeansStored(es, i, w);
      assert Arrives(es, i, w) && !Preceded(es, i, w);
    }
    if i: nat :| Arrives(es, i, w) && !Preceded(es, i, w) {
      assert es[i] in es;
      PrecededMeansStored(es, i, w);
      GetsARowIff(cfg, es, i);
      assert rows[es[i].id].payload == Some(w);
    }
  }

  const REFUNDED := "transaction.refunded"

  function RefundOf(transactionId: string, refundId: string): Webhook {
    Payment(transactionId, REFUNDED, refundId)
  }

  /** A refund of the transaction, whichever, is stored before event `n`. */
  ghost predicate RefundedBefore(es: seq<Event>, n: nat, transactionId: string) {
    exists i: nat, refundId :: i < n && Arrives(es, i, RefundOf(transactionId, refundId))
  }

  /** Of the refunds of a transaction the inbox keeps exactly the one that arrived first: the webhook of any other
      refund is accepted and lost, whenever it arrives. */
  lemma {:induction false} OnlyTheFirstRefundIsKept(
      cfg: Config, es: seq<Event>, transactionId: string, refundId: string)
    requires FreshIds(es) && FromHandlers(es)
    ensures Kept(Run(INIT(cfg), es).rows, RefundOf(transactionId, refundId)) <==>
      exists i: nat :: Arrives(es, i, RefundOf(transactionId, refundId)) && !RefundedBefore(es, i, transactionId)
  {
    var w := RefundOf(transactionId, refundId);
    WebhookIsKeptIff(cfg, es, w);
    forall n: nat ensures Preceded(es, n, w) <==> RefundedBefore(es, n, transactionId) {
      if Preceded(es, n, w) {
        var i: nat, other :| i < n && Arrives(es, i, other) && SameOccasion(other, w);
        assert other == RefundOf(transactionId, other.refundId);
      }
      if RefundedBefore(es, n, transactionId) {
        var i: nat, r :| i < n && Arrives(es, i, RefundOf(transactionId, r));
        assert SameOccasion(RefundOf(transactionId, r), w);
      }
    }
  }

  /** So no two refunds of one transaction are ever in the inbox together. */
  lemma {:induction false} RefundsExclude(cfg: Config, es: seq<Event>, transactionId: string, a: string, b: string)
    requires FreshIds(es) && FromHandlers(es)
    requires Kept(Run(INIT(cfg), es).rows, RefundOf(transactionId, a))
    requires Kept(Run(INIT(cfg), es).rows, RefundOf(transactionId, b))
    ensures a == b
  {
    OnlyTheFirstRefundIsKept(cfg, es, transactionId, a);
    OnlyTheFirstRefundIsKept(cfg, es, transactionId, b);
    var i: nat :| Arrives(es, i, RefundOf(transactionId, a)) && !RefundedBefore(es, i, transactionId);
    var j: nat :| Arrives(es, j, RefundOf(transactionId, b)) && !RefundedBefore(es, j, transactionId);
    assert i == j;
  }

  /** Two refunds of one transaction arrive, and the second is lost. */
  lemma SecondRefundIsLost(cfg: Config) returns (es: seq<Event>)
    ensures FreshIds(es) && FromHandlers(es) && |es| == 2
    ensures Arrives(es, 0, RefundOf("t", "a")) && Kept(Run(INIT(cfg), es).rows, RefundOf("t", "a"))
    ensures Arrives(es, 1, RefundOf("t", "b")) && !Kept(Run(INIT(cfg), es).rows, RefundOf("t", "b"))
  {
    es := [Received("1", RefundOf("t", "a"), 0), Received("2", RefundOf("t", "b"), 1)];
    OnlyTheFirstRefundIsKept(cfg, es, "t", "a");
    OnlyTheFirstRefundIsKept(cfg, es, "t", "b");
    assert Arrives(es, 0, RefundOf("t", "a")) && !RefundedBefore(es, 0, "t");
    assert RefundedBefore(es, 1, "t");
  }

  // The worker sends none of them.

  /** A message the worker cannot send has not been sent, and is not about to be marked processed. */
  predicate Unsent(s: Inbox) {
    && (forall id :: id in s.rows && !Sendable(s.rows[id]) ==> NeverSent(s.rows[id]))
    && (forall w :: w in s.workers ==> NotDone(s, s.workers[w]))
  }

  predicate NeverSent(row: Row) {
    row.attempts == 0 && !row.acked && row.status != Processed
  }

  predicate NotDone(s: Inbox, state: Worker) {
    state.Handled? && state.id in s.rows && !Sendable(s.rows[state.id]) ==> state.outcome == Failure(false)
  }

  lemma {:induction false} StoreUnsent(s: Inbox, e: Event)
    requires Unsent(s) && e.Store? && WorkersOk(s)
    ensures Unsent(Step(s, e))
  {
    forall w | w in s.workers ensures NotDone(Step(s, e), s.workers[w]) {
      assert WorkerOk(s, s.workers[w]) && NotDone(s, s.workers[w]);
    }
  }

  lemma {:induction false} MarkUnsent(s: Inbox, w: Id, ok: bool)
    requires Unsent(s)
    ensures Unsent(DoMark(s, w, ok))
  {
    if WorkerOf(s, w).Handled? { assert NotDone(s, s.workers[w]); }
  }

  lemma {:induction false} ProcessUnsent(s: Inbox, w: Id, tries: seq<Attempt>)
    requires Unsent(s)
    ensures Unsent(DoProcess(s, w, tries))
  {}

  lemma {:induction false} StepUnsent(s: Inbox, e: Event)
    requires Unsent(s) && WorkersOk(s)
    ensures Unsent(Step(s, e))
  {
    match e
    case Store(_, _, _, _, _) => StoreUnsent(s, e);
    case Lock(_, _) =>
    case Claim(_, _) =>
    case Process(w, tries) => ProcessUnsent(s, w, tries);
    case Mark(w, ok) => MarkUnsent(s, w, ok);
    case Crash(_) =>
  }

  lemma {:induction false} RunsUnsent(cfg: Config, es: seq<Event>)
    ensures Unsent(Run(INIT(cfg), es))
  {
    if es != [] {
      RunsUnsent(cfg, es[..|es| - 1]);
      RunsSound(cfg, es[..|es| - 1]);
      StepUnsent(Run(INIT(cfg), es[..|es| - 1]), es[|es| - 1]);
    }
  }

  /** In no run is a payment webhook, or a message that cannot be parsed, ever sent or marked processed;
    when it comes to
      its end, it has failed for good. */
  lemma {:induction false} PaymentWebhooksAreNeverSent(cfg: Config, es: seq<Event>, id: Id)
    requires id in Run(INIT(cfg), es).rows
    requires var row := Run(INIT(cfg), es).rows[id]; row.kind == OtherKind || row.payload.None?
    ensures var row := Run(INIT(cfg), es).rows[id];
      row.attempts == 0 && !row.acked && row.status != Processed && (Terminal(row) ==> row.status == Dead)
  {
    RunsUnsent(cfg, es);
    assert !Sendable(Run(INIT(cfg), es).rows[id]);
  }
}
