/** The merchant's mirror of the provider's transactions, first with every webhook processed
    atomically, then with any number of handlers interleaved statement by statement. */
module Mirror {
  import opened Base
  import opened Transactions
  import opened RowStore
  import Book

  type Webhook = Book.Webhook

  datatype Payment = Payment(id: Id, amount: int, status: Status, refundedAmount: int)

  /** A payment as CreatePayment stores it. */
  predicate JustCreated(p: Payment) {
    p.refundedAmount == 0 && (p.status == Authorized || p.status == Declined)
  }

  /** The unique index of the event store on (aggregate_id, idempotency_key). */
  datatype EventKey = EventKey(aggregate: Id, key: string)

  /** Payments are found by the provider's transaction id; there is one payment for each. */
  datatype Mirror = Mirror(payments: map<Id, Payment>, events: set<EventKey>)

  const EMPTY := Mirror(map[], {})

  function StatusText(s: Status): string {
    match s
    case Authorized => "authorized"
    case Declined => "declined"
    case CapturePending => "capture_pending"
    case Captured => "captured"
    case CaptureFailed => "capture_failed"
    case Voided => "voided"
    case PartiallyRefunded => "partially_refunded"
    case Refunded => "refunded"
  }

  function LabelText(l: Book.Label): string {
    match l
    case StatusLabel(s) => StatusText(s)
    case RefundPendingLabel => "refund_pending"
    case RefundFailedLabel => "refund_failed"
    case OtherLabel(text) => text
  }

  predicate IsRefund(w: Webhook) {
    w.event == Book.StatusLabel(Refunded)
  }

  function KeyText(w: Webhook): string {
    var key := "webhook_" + w.transactionId + "_transaction." + LabelText(w.event);
    if IsRefund(w) then key + "_" + w.refundId else key
  }

  function EventOf(p: Payment, w: Webhook): EventKey {
    EventKey(p.id, KeyText(w))
  }

  /** What the handler makes of a webhook and the row it has read: an answer, or a row to write. */
  datatype Plan = Stop(reply: Reply) | Write(row: Payment)

  datatype Reply = Applied | Ignored | UnknownPayment | UnknownStatus | AlreadyStored

  function Credit(p: Payment, amount: int): Payment {
    var total := p.refundedAmount + amount;
    p.(refundedAmount := total, status := if total >= p.amount then Refunded else PartiallyRefunded)
  }

  function PlanFor(p: Payment, w: Webhook): Plan {
    if IsRefund(w) then Write(Credit(p, w.amount))
    else match w.status
      case StatusLabel(s) =>
        if s != Captured && s != CaptureFailed && s != Voided then Stop(UnknownStatus)
        else if !CanTransitionTo(p.status, s) then Stop(Ignored)
        else Write(p.(status := s))
      case RefundFailedLabel => Stop(Ignored)
      case _ => Stop(UnknownStatus)
  }

  datatype Op =
    | Create(id: Id, payment: Payment)       // CreatePayment, after the provider authorized transaction `id`
    | MarkUnguarded(id: Id, voided: bool)    // status writes of CreatePayment, VoidPayment and captureWithDelay
    | Deliver(webhook: Webhook)

  datatype Outcome = Outcome(reply: Reply, mirror: Mirror)

  predicate IdTaken(m: Mirror, pid: Id) {
    exists id :: id in m.payments && m.payments[id].id == pid
  }

  function DoCreate(m: Mirror, id: Id, p: Payment): Outcome {
    if id in m.payments || IdTaken(m, p.id) then Outcome(AlreadyStored, m)
    else Outcome(Applied, m.(payments := m.payments[id := p]))
  }

  function DoMark(m: Mirror, id: Id, voided: bool): Outcome {
    if id !in m.payments then Outcome(UnknownPayment, m)
    else
      var p := m.payments[id].(status := if voided then Voided else CapturePending);
      Outcome(Applied, m.(payments := m.payments[id := p]))
  }

  function DoDeliver(m: Mirror, w: Webhook): Outcome {
    if w.transactionId !in m.payments then Outcome(UnknownPayment, m)
    else
      var p := m.payments[w.transactionId];
      match PlanFor(p, w)
      case Stop(reply) => Outcome(reply, m)
      case Write(row) =>
        if EventOf(p, w) in m.events then Outcome(AlreadyStored, m)
        else Outcome(Applied, Mirror(m.payments[w.transactionId := row], m.events + {EventOf(p, w)}))
  }

  /** One operation, start to end, with nothing in between. */
  function Do(m: Mirror, op: Op): Outcome {
    match op
    case Create(id, p) => DoCreate(m, id, p)
    case MarkUnguarded(id, voided) => DoMark(m, id, voided)
    case Deliver(w) => DoDeliver(m, w)
  }

  datatype Entry = Entry(op: Op, reply: Reply)

  function After(h: seq<Entry>): Mirror {
    if h == [] then EMPTY else Do(After(h[..|h| - 1]), h[|h| - 1].op).mirror
  }

  /** Done one after the other, the operations give exactly the recorded replies. */
  predicate Honest(h: seq<Entry>) {
    h != [] ==> Honest(h[..|h| - 1]) && Do(After(h[..|h| - 1]), h[|h| - 1].op).reply == h[|h| - 1].reply
  }

  // Statement by statement, under RepeatableRead.

  datatype Stage = Reading | Written | Inserted

  /** An open database transaction of a handler: the webhook, and the payment as it was read. */
  datatype Session = Session(w: Webhook, seen: Payment, seenVersion: nat, stage: Stage)

  datatype State = State(mirror: Mirror, locks: Locks<Payment>, sessions: map<Id, Session>, history: seq<Entry>)

  const INIT := State(EMPTY, Locks(map[], map[], map[]), map[], [])

  datatype Event =
    | Begin(sid: Id, w: Webhook)
    | UpdateRow(sid: Id)
    | InsertEvent(sid: Id)
    | Commit(sid: Id)
    | Abort(sid: Id)
    | Alone(op: Op)

  function Logged(l: State, op: Op, reply: Reply): State {
    l.(history := l.history + [Entry(op, reply)])
  }

  function Advance(l: State, sid: Id, stage: Stage): State
    requires sid in l.sessions
  {
    l.(sessions := l.sessions[sid := l.sessions[sid].(stage := stage)])
  }

  function Rollback(l: State, sid: Id): State
    requires sid in l.sessions
  {
    var s := l.sessions[sid];
    l.(
        sessions := l.sessions - {sid},
        locks := if s.stage.Reading? then l.locks else Unlock(l.locks, s.w.transactionId))
  }

  function Open(l: State, sid: Id, s: Session): State {
    l.(sessions := l.sessions[sid := s])
  }

  function DoBegin(l: State, sid: Id, w: Webhook): State {
    var id := w.transactionId;
    if sid in l.sessions then l
    else if id !in l.mirror.payments then Logged(l, Deliver(w), UnknownPayment)
    else
      var p := l.mirror.payments[id];
      match PlanFor(p, w)
      case Stop(reply) => Logged(l, Deliver(w), reply)
      case Write(_) => Open(l, sid, Session(w, p, Version(l.locks, id), Reading))
  }

  function Planned(s: Session): Payment {
    match PlanFor(s.seen, s.w) case Write(row) => row case Stop(_) => s.seen
  }

  function WriteRow(l: State, sid: Id): State
    requires sid in l.sessions
  {
    var s := l.sessions[sid];
    Advance(l, sid, Written).(locks := RowStore.Write(l.locks, sid, s.w.transactionId, Planned(s)))
  }

  function DoUpdateRow(l: State, sid: Id): State {
    if sid !in l.sessions || !l.sessions[sid].stage.Reading? then l
    else
      var s := l.sessions[sid];
      if !Free(l.locks, sid, s.w.transactionId) then l                                        // waits for the row lock
      else if Version(l.locks, s.w.transactionId) != s.seenVersion then Rollback(l, sid)      // serialization failure
      else WriteRow(l, sid)
  }

  function EventOfSession(s: Session): EventKey {
    EventOf(s.seen, s.w)
  }

  predicate EventInFlight(l: State, key: EventKey) {
    exists other :: other in l.sessions && l.sessions[other].stage.Inserted? && EventOfSession(l.sessions[other]) == key
  }

  function DoInsertEvent(l: State, sid: Id): State {
    if sid !in l.sessions || !l.sessions[sid].stage.Written? then l
    else
      var s := l.sessions[sid];
      if EventInFlight(l, EventOfSession(s)) then l                                           // waits for the index
      else if EventOfSession(s) in l.mirror.events then Logged(Rollback(l, sid), Deliver(s.w), AlreadyStored)
      else Advance(l, sid, Inserted)
  }

  predicate CanCommit(l: State, sid: Id) {
    sid in l.sessions && l.sessions[sid].stage.Inserted? && l.sessions[sid].w.transactionId in l.locks.staged
  }

  function Publish(l: State, sid: Id): State
    requires CanCommit(l, sid)
  {
    var s := l.sessions[sid];
    var id := s.w.transactionId;
    State(Mirror(l.mirror.payments[id := l.locks.staged[id]], l.mirror.events + {EventOfSession(s)}),
          Bump(Unlock(l.locks, id), id), l.sessions - {sid}, l.history)
  }

  function DoCommit(l: State, sid: Id): State {
    if CanCommit(l, sid) then Logged(Publish(l, sid), Deliver(l.sessions[sid].w), Applied) else l
  }

  /** A single statement that writes row `id`, once nobody holds its lock. */
  function Autocommit(l: State, m: Mirror, id: Id): State {
    l.(mirror := m, locks := Bump(l.locks, id))
  }

  function DoAlone(l: State, op: Op): State {
    if op.Deliver? || op.id in l.locks.holder then l
    else Logged(Autocommit(l, Do(l.mirror, op).mirror, op.id), op, Do(l.mirror, op).reply)
  }

  function Step(l: State, e: Event): State {
    match e
    case Begin(sid, w) => DoBegin(l, sid, w)
    case UpdateRow(sid) => DoUpdateRow(l, sid)
    case InsertEvent(sid) => DoInsertEvent(l, sid)
    case Commit(sid) => DoCommit(l, sid)
    case Abort(sid) => if sid in l.sessions then Rollback(l, sid) else l
    case Alone(op) => DoAlone(l, op)
  }

  function Run(l: State, es: seq<Event>): State {
    if es == [] then l else Step(Run(l, es[..|es| - 1]), es[|es| - 1])
  }
}
