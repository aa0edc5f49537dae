/** The same ledger under concurrency: any number of Capture, Refund and Void calls interleaved
    statement by statement with each other and with the background goroutines. */
module Ledger {
  import opened Base
  import opened Transactions
  import opened Book
  import opened RowStore

  datatype Call =
    | CaptureCall(key: string, captured: int)   // RepeatableRead
    | RefundCall(amount: int, key: string)      // RepeatableRead
    | VoidCall                                  // ReadCommitted, SELECT ... FOR UPDATE

  /** How far the database transaction of a call has come. */
  datatype Stage = Reading | Approved | Written | Inserted(rid: Id)

  /** An open database transaction: the row as it was read, and its version at that moment. */
  datatype Session = Session(id: Id, call: Call, seen: Transaction, seenVersion: nat, stage: Stage)

  datatype Ledger = Ledger(book: Book, locks: Locks<Transaction>, sessions: map<Id, Session>, history: seq<Entry>)

  const INIT := Ledger(EMPTY, Locks(map[], map[], map[]), map[], [])

  datatype Event =
    | Begin(sid: Id, id: Id, call: Call)        // first statement and validation
    | AskVoid(sid: Id, ok: bool)                // the bank call made under the row lock
    | UpdateRow(sid: Id)
    | InsertRefund(sid: Id, rid: Id)
    | Commit(sid: Id)
    | Abort(sid: Id)                            // any statement error, cancellation or crash
    | Alone(op: Op)                             // autocommit statements and goroutine steps

  function Validate(call: Call, tx: Transaction): Reply {
    match call
    case RefundCall(amount, _) => RefundVerdict(tx, amount)
    case _ => if tx.status == Authorized then Accepted else InvalidTransition
  }

  /** The row image a validated call is going to write. */
  function Planned(call: Call, seen: Transaction): Transaction {
    match call
    case CaptureCall(key, _) => seen.(status := CapturePending, idempotencyKey := key)
    case RefundCall(amount, _) => Reserve(seen, amount)
    case VoidCall => seen.(status := Voided)
  }

  function OpOf(id: Id, call: Call, rid: Id, bankOk: bool): Op {
    match call
    case CaptureCall(key, captured) => Capture(id, key, captured)
    case RefundCall(amount, key) => RefundOp(id, rid, amount, key)
    case VoidCall => Void(id, bankOk)
  }

  predicate HoldsLock(s: Session) {
    s.call.VoidCall? || !s.stage.Reading?
  }

  predicate Wrote(s: Session) {
    s.stage.Written? || s.stage.Inserted?
  }

  predicate ReadyToUpdate(s: Session) {
    if s.call.VoidCall? then s.stage.Approved? else s.stage.Reading?
  }

  predicate ReadyToCommit(s: Session) {
    if s.call.RefundCall? then s.stage.Inserted? else s.stage.Written?
  }

  /** An uncommitted row image of another session holds the same idempotency key. */
  predicate KeyInFlight(staged: map<Id, Transaction>, id: Id, tx: Transaction) {
    exists other :: other in staged && other != id && KeyClash(staged[other], tx)
  }

  function Logged(l: Ledger, op: Op, reply: Reply): Ledger {
    l.(history := l.history + [Entry(op, reply)])
  }

  /** A database transaction starts from what its first statement read. */
  function Open(l: Ledger, sid: Id, s: Session): Ledger {
    l.(sessions := l.sessions[sid := s], locks := if HoldsLock(s) then Hold(l.locks, sid, s.id) else l.locks)
  }

  function Advance(l: Ledger, sid: Id, stage: Stage): Ledger
    requires sid in l.sessions
  {
    l.(sessions := l.sessions[sid := l.sessions[sid].(stage := stage)])
  }

  function WriteRow(l: Ledger, sid: Id): Ledger
    requires sid in l.sessions
  {
    var s := l.sessions[sid];
    Advance(l, sid, Written).(locks := Write(l.locks, sid, s.id, Planned(s.call, s.seen)))
  }

  /** The database transaction of `sid` ends without effect. */
  function Rollback(l: Ledger, sid: Id): Ledger
    requires sid in l.sessions
  {
    var s := l.sessions[sid];
    l.(sessions := l.sessions - {sid}, locks := if HoldsLock(s) then Unlock(l.locks, s.id) else l.locks)
  }

  function NewRefund(s: Session): Refund
    requires s.call.RefundCall?
  {
    Refund(s.id, s.call.amount, RefundPending, s.call.key)
  }

  /** What the commit of a call makes visible, and the goroutine started right after it. */
  function Install(b: Book, s: Session, row: Transaction): Book
    requires ReadyToCommit(s)
  {
    var b' := b.(txs := b.txs[s.id := row]);
    match s.call
    case CaptureCall(_, captured) => b'.(settles := b.settles[s.id := SettleJob(row, captured, AtBank, [])])
    case RefundCall(_, _) => b'.(
      refunds := b.refunds[s.stage.rid := NewRefund(s)],
      jobs := b.jobs[s.stage.rid := RefundJob(AtBank, [], false)])
    case VoidCall => b'.(voidNotices := b.voidNotices[s.id := row])
  }

  predicate CanCommit(l: Ledger, sid: Id) {
    sid in l.sessions && ReadyToCommit(l.sessions[sid]) && l.sessions[sid].id in l.locks.staged
  }

  function Publish(l: Ledger, sid: Id): Ledger
    requires CanCommit(l, sid)
  {
    var s := l.sessions[sid];
    l.(book := Install(l.book, s, l.locks.staged[s.id]),
       sessions := l.sessions - {sid},
       locks := Bump(Unlock(l.locks, s.id), s.id))
  }

  // The events.

  function DoBegin(l: Ledger, sid: Id, id: Id, call: Call): Ledger {
    var op := OpOf(id, call, "", true);
    if sid in l.sessions || (call.VoidCall? && !Free(l.locks, sid, id)) then l
    else if call.RefundCall? && call.amount < 1 then Logged(l, op, BadRequest)
    else if id !in l.book.txs then Logged(l, op, NotFound)
    else
      var tx := l.book.txs[id];
      if !Validate(call, tx).Accepted? then Logged(l, op, Validate(call, tx))
      else Open(l, sid, Session(id, call, tx, Version(l.locks, id), Reading))
  }

  function DoAskVoid(l: Ledger, sid: Id, ok: bool): Ledger {
    if sid !in l.sessions || !l.sessions[sid].call.VoidCall? || !l.sessions[sid].stage.Reading? then l
    else if ok then Advance(l, sid, Approved)
    else Logged(Rollback(l, sid), Void(l.sessions[sid].id, false), BankRefused)
  }

  function DoUpdateRow(l: Ledger, sid: Id): Ledger {
    if sid !in l.sessions || !ReadyToUpdate(l.sessions[sid]) then l
    else
      var s := l.sessions[sid];
      var row := Planned(s.call, s.seen);
      if !Free(l.locks, sid, s.id) then l                                          // waits for the row lock
      else if Version(l.locks, s.id) != s.seenVersion then Rollback(l, sid)        // serialization failure
      else if KeyInFlight(l.locks.staged, s.id, row) then l                        // waits for the index
      else if KeyTaken(l.book.txs, s.id, row) then
        Logged(Rollback(l, sid), OpOf(s.id, s.call, "", true), DuplicateIdempotency)
      else WriteRow(l, sid)
  }

  predicate RidInFlight(l: Ledger, rid: Id) {
    exists other :: other in l.sessions && l.sessions[other].stage == Inserted(rid)
  }

  function DoInsertRefund(l: Ledger, sid: Id, rid: Id): Ledger {
    if sid !in l.sessions || !l.sessions[sid].call.RefundCall? || !l.sessions[sid].stage.Written? then l
    else
      var s := l.sessions[sid];
      if RidInFlight(l, rid) then l                                                // waits for the index
      else if RefundTaken(l.book.refunds, rid, NewRefund(s)) then
        Logged(Rollback(l, sid), OpOf(s.id, s.call, rid, true), DuplicateIdempotency)
      else Advance(l, sid, Inserted(rid))
  }

  function DoCommit(l: Ledger, sid: Id): Ledger {
    if !CanCommit(l, sid) then l
    else
      var s := l.sessions[sid];
      var rid := if s.stage.Inserted? then s.stage.rid else "";
      Logged(Publish(l, sid), OpOf(s.id, s.call, rid, true), Accepted)
  }

  function DoAbort(l: Ledger, sid: Id): Ledger {
    if sid in l.sessions then Rollback(l, sid) else l
  }

  /** The row a single statement writes, if it writes one. */
  function WrittenRow(b: Book, op: Op): Option<Id> {
    match op
    case SettleDoes(id, SettleWrite) => if SettlePhase(b, id).Answered? && SettleHits(b, id) then Some(id) else None
    case RefundDoes(rid, Release) =>
      if JobPhase(b, rid).Releasing? && ReleaseFits(b, rid) then Some(b.refunds[rid].transactionId) else None
    case _ => None
  }

  function DoAlone(l: Ledger, op: Op): Ledger {
    var row := WrittenRow(l.book, op);
    if op.Capture? || op.RefundOp? || op.Void? || Do(l.book, op).reply == NotEnabled then l
    else if row.Some? && row.value in l.locks.holder then l                        // waits for the row lock
    else Logged(
      l.(book := Do(l.book, op).book, locks := if row.Some? then Bump(l.locks, row.value) else l.locks),
      op, Do(l.book, op).reply)
  }

  /** One step of the system; an event that has to wait leaves everything as it is. */
  function Step(l: Ledger, e: Event): Ledger {
    match e
    case Begin(sid, id, call) => DoBegin(l, sid, id, call)
    case AskVoid(sid, ok) => DoAskVoid(l, sid, ok)
    case UpdateRow(sid) => DoUpdateRow(l, sid)
    case InsertRefund(sid, rid) => DoInsertRefund(l, sid, rid)
    case Commit(sid) => DoCommit(l, sid)
    case Abort(sid) => DoAbort(l, sid)
    case Alone(op) => DoAlone(l, op)
  }

  /** An interleaving: any events in any order. */
  function Run(l: Ledger, es: seq<Event>): Ledger {
    if es == [] then l else Step(Run(l, es[..|es| - 1]), es[|es| - 1])
  }
}
