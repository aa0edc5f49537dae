/** The tables `transactions` and `refunds` as PostgreSQL statements see them, beside the
    step machine they are proved against. Other clients act between any two statements. */
module Database {
  import opened Base
  import opened Transactions
  import opened Book
  import opened RowStore
  import opened Ledger
  import opened BookProofs
  import opened LedgerProofs
  import opened LedgerTheorems

  /** Whose program an event belongs to. */
  datatype Owner = Caller(sid: Id) | Settler(id: Id) | Refunder(rid: Id) | Someone

  function OwnerOf(e: Event): Owner {
    match e
    case Alone(SettleDoes(id, _)) => Settler(id)
    case Alone(RefundDoes(rid, _)) => Refunder(rid)
    case Alone(_) => Someone
    case Begin(sid, _, _) => Caller(sid)
    case InsertRefund(sid, _) => Caller(sid)
    case AskVoid(sid, _) => Caller(sid)
    case UpdateRow(sid) => Caller(sid)
    case Commit(sid) => Caller(sid)
    case Abort(sid) => Caller(sid)
  }

  /** What event `e` of program `who` added to the record. */
  function Appended(before: Ledger, after: Ledger, e: Event, who: Owner): seq<Entry> {
    if OwnerOf(e) == who && |before.history| <= |after.history| then after.history[|before.history|..] else []
  }

  /** What the events of one program put on record in the run `es`. */
  function Recorded(es: seq<Event>, who: Owner): seq<Entry> {
    if es == [] then []
    else
      var before := Run(INIT, es[..|es| - 1]);
      Recorded(es[..|es| - 1], who) + Appended(before, Step(before, es[|es| - 1]), es[|es| - 1], who)
  }

  /** The program state of `who` that nobody else may touch. */
  predicate Untouched(l: Ledger, l': Ledger, who: Owner) {
    match who
    case Caller(sid) =>
      (sid in l.sessions <==> sid in l'.sessions) && (sid in l.sessions ==> l'.sessions[sid] == l.sessions[sid])
    case Settler(id) =>
      id in l.book.settles ==> id in l'.book.settles && l'.book.settles[id] == l.book.settles[id]
    case Refunder(rid) =>
      rid in l.book.jobs && rid in l.book.refunds ==>
        && rid in l'.book.jobs && l'.book.jobs[rid] == l.book.jobs[rid]
        && rid in l'.book.refunds && l'.book.refunds[rid] == l.book.refunds[rid]
    case Someone => true
  }

  lemma CallersUntouched(l: Ledger, e: Event, sid: Id)
    requires OwnerOf(e) != Caller(sid)
    ensures Untouched(l, Step(l, e), Caller(sid))
  {}

  predicate SettleKept(b: Book, b': Book, id: Id) {
    id in b.settles ==> id in b'.settles && b'.settles[id] == b.settles[id]
  }

  predicate RefundKept(b: Book, b': Book, rid: Id) {
    rid in b.jobs && rid in b.refunds ==>
      && rid in b'.jobs && b'.jobs[rid] == b.jobs[rid]
      && rid in b'.refunds && b'.refunds[rid] == b.refunds[rid]
  }

  lemma RefundingKeepsSettles(b: Book, rid: Id, step: RefundStep)
    ensures DoRefundJob(b, rid, step).book.settles == b.settles
  {}

  /** A row with a settle goroutine has left Authorized, so no second capture replaces the goroutine. */
  lemma CaptureKeepsSettles(b: Book, captured: Id, key: string, amount: int, id: Id)
    requires Rows(b)
    ensures SettleKept(b, DoCapture(b, captured, key, amount).book, id)
  {
    if id in b.settles { assert RowOk(b.txs[id], JobOf(b, id)); }
  }

  lemma OtherSettlersKeepSettles(b: Book, other: Id, step: SettleStep, id: Id)
    requires other != id
    ensures SettleKept(b, DoSettle(b, other, step).book, id)
  {}

  lemma {:induction false} SettleKeptByOthers(b: Book, op: Op, id: Id)
    requires Rows(b) && OwnerOf(Alone(op)) != Settler(id)
    ensures SettleKept(b, Do(b, op).book, id)
  {
    match op
    case SettleDoes(other, step) => OtherSettlersKeepSettles(b, other, step, id);
    case RefundDoes(rid, step) => RefundingKeepsSettles(b, rid, step);
    case Authorize(_, _, _) => CallsKeepSettles(b, op, id);
    case Capture(_, _, _) => CallsKeepSettles(b, op, id);
    case Void(_, _) => CallsKeepSettles(b, op, id);
    case RefundOp(_, _, _, _) => CallsKeepSettles(b, op, id);
    case VoidNotify(_) => CallsKeepSettles(b, op, id);
  }

  lemma {:induction false} CallsKeepSettles(b: Book, op: Op, id: Id)
    requires Rows(b) && !op.SettleDoes? && !op.RefundDoes?
    ensures SettleKept(b, Do(b, op).book, id)
  {
    match op
    case Authorize(_, _, _) =>
    case Capture(captured, key, amount) => CaptureKeepsSettles(b, captured, key, amount, id);
    case Void(voided, ok) => VoidKeepsSettles(b, voided, ok, id);
    case RefundOp(of, rid, amount, key) => RefundKeepsSettles(b, of, rid, amount, key, id);
    case VoidNotify(_) =>
  }

  lemma RefundKeepsSettles(b: Book, of: Id, rid: Id, amount: int, key: string, id: Id)
    ensures SettleKept(b, DoRefund(b, of, rid, amount, key).book, id)
  {}

  lemma VoidKeepsSettles(b: Book, voided: Id, ok: bool, id: Id)
    ensures SettleKept(b, DoVoid(b, voided, ok).book, id)
  {}

  lemma RefundKeptByOthers(b: Book, op: Op, rid: Id)
    requires OwnerOf(Alone(op)) != Refunder(rid)
    ensures RefundKept(b, Do(b, op).book, rid)
  {
    match op
    case Authorize(_, _, _) =>
    case Capture(_, _, _) =>
    case Void(_, _) =>
    case RefundOp(of, other, amount, key) => RefundKeepsOthers(b, of, other, amount, key, rid);
    case SettleDoes(_, _) =>
    case RefundDoes(other, step) => RefundersKeepOthers(b, other, step, rid);
    case VoidNotify(_) =>
  }

  lemma RefundKeepsOthers(b: Book, of: Id, other: Id, amount: int, key: string, rid: Id)
    ensures RefundKept(b, DoRefund(b, of, other, amount, key).book, rid)
  {}

  lemma RefundersKeepOthers(b: Book, other: Id, step: RefundStep, rid: Id)
    requires other != rid
    ensures RefundKept(b, DoRefundJob(b, other, step).book, rid)
  {}

  /** A logged operation belongs to the program whose event logged it. */
  lemma LoggedByItsOwner(l: Ledger, e: Event)
    requires Step(l, e).history != l.history
    ensures |Step(l, e).history| == |l.history| + 1
    ensures var op := Step(l, e).history[|l.history|].op;
      if e.Alone? then op == e.op else OwnerOf(Alone(op)) == Someone
  {}

  /** Nobody but its owner touches the state of a program. */
  lemma OthersKeepOut(l: Ledger, e: Event, who: Owner)
    requires Coherent(l) && UniqueKeys(l.book.txs) && Rows(l.book)
    requires OwnerOf(e) != who
    ensures Untouched(l, Step(l, e), who)
  {
    match who
    case Caller(sid) => CallersUntouched(l, e, sid);
    case Someone =>
    case Settler(id) => SettlersUntouched(l, e, id);
    case Refunder(rid) => RefundersUntouched(l, e, rid);
  }

  lemma SettlersUntouched(l: Ledger, e: Event, id: Id)
    requires Coherent(l) && UniqueKeys(l.book.txs) && Rows(l.book) && OwnerOf(e) != Settler(id)
    ensures SettleKept(l.book, Step(l, e).book, id)
  {
    StepExplained(l, e);
    if Step(l, e).history != l.history {
      LoggedByItsOwner(l, e);
      SettleKeptByOthers(l.book, Step(l, e).history[|l.history|].op, id);
    }
  }

  lemma RefundersUntouched(l: Ledger, e: Event, rid: Id)
    requires Coherent(l) && UniqueKeys(l.book.txs) && OwnerOf(e) != Refunder(rid)
    ensures RefundKept(l.book, Step(l, e).book, rid)
  {
    StepExplained(l, e);
    if Step(l, e).history != l.history {
      LoggedByItsOwner(l, e);
      RefundKeptByOthers(l.book, Step(l, e).history[|l.history|].op, rid);
    }
  }

  /** What the machine guarantees an open database transaction. */
  lemma {:induction false} SessionFacts(es: seq<Event>, sid: Id)
    requires sid in Run(INIT, es).sessions
    ensures var l := Run(INIT, es); Sees(l, l.sessions[sid]) && Owns(l, sid, l.sessions[sid])
    ensures var l := Run(INIT, es); var s := l.sessions[sid];
      !HoldsLock(s) ==> !(s.id in l.locks.holder && l.locks.holder[s.id] == sid)
  {
    RunsCoherent(es);
  }

  lemma {:induction false} NoLockWithoutSession(es: seq<Event>, sid: Id, id: Id)
    requires sid !in Run(INIT, es).sessions
    ensures var l := Run(INIT, es); id in l.locks.holder ==> l.locks.holder[id] != sid
    ensures var l := Run(INIT, es); id in l.locks.staged ==> id in l.locks.holder
  {
    RunsCoherent(es);
  }

  /** The columns an UPDATE sets; all other columns keep the values of the current row version. */
  datatype Assignment = SetStatus(status: Status, key: string) | SetRefund(status: Status, refunded: int)

  function Assign(row: Transaction, a: Assignment): Transaction {
    match a
    case SetStatus(status, key) => row.(status := status, idempotencyKey := key)
    case SetRefund(status, refunded) => row.(status := status, refundedAmount := refunded)
  }

  datatype WriteResult = Updated | NoRows | Waits | SerializationFailure | UniqueViolation

  datatype NewRowResult = Stored | IdTaken | PurchaseKeyTaken

  datatype LockResult = Locked(row: Transaction) | NotThere | Busy

  /** What an UPDATE of one row by id answers; a snapshot is given under RepeatableRead. */
  function UpdateAnswer(rows: map<Id, Transaction>, locks: Locks<Transaction>, sid: Id, id: Id, a: Assignment,
                        snapshot: Option<nat>): WriteResult
  {
    if id !in rows then NoRows
    else if !Free(locks, sid, id) then Waits
    else if snapshot.Some? && snapshot.value != Version(locks, id) then SerializationFailure
    else if KeyInFlight(locks.staged, id, Assign(rows[id], a)) then Waits
    else if KeyTaken(rows, id, Assign(rows[id], a)) then UniqueViolation
    else Updated
  }

  function SnapshotOf(s: Session): Option<nat> {
    if s.call.VoidCall? then None else Some(s.seenVersion)
  }

  /** The answer of the UPDATE decides how the machine's UpdateRow event goes. */
  lemma UpdateDecides(l: Ledger, sid: Id, a: Assignment)
    requires sid in l.sessions && Sees(l, l.sessions[sid]) && Owns(l, sid, l.sessions[sid])
    requires var s := l.sessions[sid]; ReadyToUpdate(s) && Assign(s.seen, a) == Planned(s.call, s.seen)
    ensures var s := l.sessions[sid]; var res := UpdateAnswer(l.book.txs, l.locks, sid, s.id, a, SnapshotOf(s));
      && res != NoRows
      && (res == Updated ==>
            DoUpdateRow(l, sid) == WriteRow(l, sid)
            && WriteRow(l, sid).locks == Write(l.locks, sid, s.id, Assign(l.book.txs[s.id], a)))
      && (res == SerializationFailure ==> DoUpdateRow(l, sid) == Rollback(l, sid) && !HoldsLock(s))
      && (res == UniqueViolation ==>
            DoUpdateRow(l, sid) == Logged(Rollback(l, sid), OpOf(s.id, s.call, "", true), DuplicateIdempotency))
  {}

  /** What the first statement of a call and the validation of the row it reads lead to. */
  lemma BeginDecides(l: Ledger, sid: Id, id: Id, call: Call)
    requires sid !in l.sessions
    requires call.VoidCall? ==> Free(l.locks, sid, id)
    requires call.RefundCall? ==> call.amount >= 1
    ensures var l' := DoBegin(l, sid, id, call);
      && l'.book == l.book
      && (id !in l.book.txs ==> l' == Logged(l, OpOf(id, call, "", true), NotFound))
      && (id in l.book.txs && !Validate(call, l.book.txs[id]).Accepted? ==>
            l' == Logged(l, OpOf(id, call, "", true), Validate(call, l.book.txs[id])))
      && (id in l.book.txs && Validate(call, l.book.txs[id]).Accepted? ==>
            l' == Open(l, sid, Reader(l, id, call)))
  {}

  function RefundRow(s: Session): map<Id, Refund> {
    if s.call.RefundCall? && s.stage.Inserted? then map[s.stage.rid := NewRefund(s)] else map[]
  }

  function RidOf(s: Session): Id {
    if s.stage.Inserted? then s.stage.rid else ""
  }

  /** What the COMMIT makes visible in the tables. */
  lemma CommitInstalls(l: Ledger, sid: Id)
    requires CanCommit(l, sid)
    ensures var s := l.sessions[sid]; var l' := DoCommit(l, sid);
      && l'.book.txs == l.book.txs[s.id := l.locks.staged[s.id]]
      && l'.book.refunds == l.book.refunds + RefundRow(s)
  {
    var s := l.sessions[sid];
    InstallInserts(l.book, s, l.locks.staged[s.id]);
    assert DoCommit(l, sid).book == Install(l.book, s, l.locks.staged[s.id]);
  }

  lemma InstallInserts(b: Book, s: Session, row: Transaction)
    requires ReadyToCommit(s)
    ensures Install(b, s, row).txs == b.txs[s.id := row] && Install(b, s, row).refunds == b.refunds + RefundRow(s)
  {
    match s.call
    case RefundCall(_, _) => assert Install(b, s, row).refunds == b.refunds[s.stage.rid := NewRefund(s)];
    case _ =>
  }

  /** The COMMIT of a call that has made its last statement always goes through in the machine. */
  lemma CommitDecides(l: Ledger, sid: Id)
    requires sid in l.sessions && Owns(l, sid, l.sessions[sid]) && ReadyToCommit(l.sessions[sid])
    ensures var s := l.sessions[sid]; var l' := DoCommit(l, sid);
      && s.id in l.locks.staged
      && l'.locks == Bump(Unlock(l.locks, s.id), s.id)
      && l'.sessions == l.sessions - {sid}
      && l'.history == l.history + [Entry(OpOf(s.id, s.call, RidOf(s), true), Accepted)]
  {}

  class Postgres {
    var rows: map<Id, Transaction>
    var refunds: map<Id, Refund>
    var locks: Locks<Transaction>
    // The step machine this database is proved against, and everything that has happened to it.
    var ledger: Ledger
    var trace: seq<Event>
    // What other clients are going to do, in bursts between the statements of one program.
    var schedule: seq<seq<Event>>

    predicate Agrees(l: Ledger)
      reads this
    {
      rows == l.book.txs && refunds == l.book.refunds && locks == l.locks
    }

    ghost predicate Valid()
      reads this
    {
      Agrees(ledger) && ledger == Run(INIT, trace)
    }

    constructor (schedule: seq<seq<Event>>)
      ensures Valid() && trace == []
    {
      rows, refunds, locks := map[], map[], Locks(map[], map[], map[]);
      ledger, trace := INIT, [];
      this.schedule := schedule;
    }

    /** Advances the machine by the event the tables have already gone through. */
    method Did(e: Event)
      requires ledger == Run(INIT, trace) && Agrees(Step(ledger, e))
      modifies this`ledger, this`trace
      ensures Valid() && trace == old(trace) + [e] && ledger == Step(old(ledger), e)
      ensures |old(ledger.history)| <= |ledger.history|
      ensures old(ledger.history) == ledger.history[..|old(ledger.history)|]
      ensures forall who :: Recorded(trace, who) == Recorded(old(trace), who) + Appended(old(ledger), ledger, e, who)
    {
      HistoryOnlyGrows(trace, [e]);
      assert (trace + [e])[..|trace|] == trace;
      ledger, trace := Step(ledger, e), trace + [e];
    }

    /** A step of `who`, and what it puts on record. */
    method DidFor(e: Event, who: Owner, done: seq<Entry>)
      requires OwnerOf(e) == who && ledger == Run(INIT, trace) && Agrees(Step(ledger, e))
      requires Step(ledger, e).history == ledger.history + done
      modifies this`ledger, this`trace
      ensures Valid() && trace == old(trace) + [e] && ledger == Step(old(ledger), e)
      ensures Recorded(trace, who) == Recorded(old(trace), who) + done
    {
      Did(e);
    }

    /** One burst of other clients' events. */
    method Others(who: Owner)
      requires Valid()
      modifies this
      ensures Valid() && old(trace) <= trace
      ensures Untouched(old(ledger), ledger, who) && Recorded(trace, who) == Recorded(old(trace), who)
    {
      if schedule == [] { return; }
      var burst := schedule[0];
      schedule := schedule[1..];
      var i := 0;
      while i < |burst|
        invariant Valid() && old(trace) <= trace
        invariant Untouched(old(ledger), ledger, who) && Recorded(trace, who) == Recorded(old(trace), who)
      {
        if OwnerOf(burst[i]) != who { Other(burst[i], who); }
        i := i + 1;
      }
    }

    method Other(e: Event, who: Owner)
      requires Valid() && OwnerOf(e) != who
      modifies this`rows, this`refunds, this`locks, this`ledger, this`trace
      ensures Valid() && trace == old(trace) + [e]
      ensures Untouched(old(ledger), ledger, who) && Recorded(trace, who) == Recorded(old(trace), who)
    {
      Linearizable(trace);
      OthersKeepOut(ledger, e, who);
      var next := Step(ledger, e);
      rows, refunds, locks := next.book.txs, next.book.refunds, next.locks;
      Did(e);
    }

    // Statements.

    /** SELECT ... WHERE id = $1, the first statement of a snapshot: the row and its version. */
    method Select(id: Id) returns (row: Option<Transaction>, snapshot: nat)
      ensures row == (if id in rows then Some(rows[id]) else None) && snapshot == Version(locks, id)
    {
      row := if id in rows then Some(rows[id]) else None;
      snapshot := Version(locks, id);
    }

    /** SELECT ... FOR UPDATE. */
    method SelectForUpdate(sid: Id, id: Id) returns (res: LockResult)
      modifies this`locks
      ensures res == (if !Free(old(locks), sid, id) then Busy else if id !in rows then NotThere else Locked(rows[id]))
      ensures locks == (if res.Locked? then Hold(old(locks), sid, id) else old(locks))
    {
      if !Free(locks, sid, id) { return Busy; }
      if id !in rows { return NotThere; }
      locks := Hold(locks, sid, id);
      return Locked(rows[id]);
    }

    /** INSERT INTO transactions, on its own; the primary key refuses a second row with the same id, a unique index
        one with the same merchant and purchase key. */
    method InsertRow(id: Id, row: Transaction) returns (res: NewRowResult)
      modifies this`rows
      ensures res == (if id in old(rows) then IdTaken
                      else if PurchaseKeyUsed(old(rows), row.merchantId, row.purchaseKey) then PurchaseKeyTaken
                      else Stored)
      ensures rows == (if res == Stored then old(rows)[id := row] else old(rows))
    {
      if id in rows { return IdTaken; }
      if PurchaseKeyUsed(rows, row.merchantId, row.purchaseKey) { return PurchaseKeyTaken; }
      rows := rows[id := row];
      return Stored;
    }

    /** UPDATE ... WHERE id = $1 inside a database transaction. */
    method Update(sid: Id, id: Id, a: Assignment, snapshot: Option<nat>) returns (res: WriteResult)
      modifies this`locks
      ensures res == UpdateAnswer(rows, old(locks), sid, id, a, snapshot)
      ensures locks == (if res == Updated then Write(old(locks), sid, id, Assign(rows[id], a)) else old(locks))
    {
      res := UpdateAnswer(rows, locks, sid, id, a, snapshot);
      if res == Updated { locks := Write(locks, sid, id, Assign(rows[id], a)); }
    }

    /** INSERT INTO refunds; the row stays with its database transaction until the commit. */
    method InsertRefundRow(rid: Id, r: Refund) returns (res: WriteResult)
      ensures res == (if RidInFlight(ledger, rid) then Waits
                      else if RefundTaken(refunds, rid, r) then UniqueViolation else Updated)
    {
      if RidInFlight(ledger, rid) { return Waits; }
      res := if RefundTaken(refunds, rid, r) then UniqueViolation else Updated;
    }

    /** COMMIT of a database transaction that wrote row `id` and inserted these refunds. */
    method CommitWork(id: Id, inserted: map<Id, Refund>)
      requires id in locks.staged
      modifies this`rows, this`refunds, this`locks
      ensures rows == old(rows)[id := old(locks).staged[id]] && refunds == old(refunds) + inserted
      ensures locks == Bump(Unlock(old(locks), id), id)
    {
      rows := rows[id := locks.staged[id]];
      refunds := refunds + inserted;
      locks := Bump(Unlock(locks, id), id);
    }

    /** ROLLBACK of a database transaction that may hold the lock of row `id`. */
    method RollbackWork(sid: Id, id: Id)
      modifies this`locks
      ensures locks == (if id in old(locks).holder && old(locks).holder[id] == sid then Unlock(old(locks), id)
                        else old(locks))
    {
      if id in locks.holder && locks.holder[id] == sid { locks := Unlock(locks, id); }
    }

    /** UPDATE ... SET status WHERE id = $1 AND status = $2, on its own. */
    method CompareAndUpdateStatus(id: Id, expected: Status, next: Status) returns (res: WriteResult)
      modifies this`rows, this`locks
      ensures res == (if id !in old(rows) || old(rows)[id].status != expected then NoRows
                      else if id in old(locks).holder then Waits else Updated)
      ensures rows == (if res == Updated then old(rows)[id := old(rows)[id].(status := next)] else old(rows))
      ensures locks == (if res == Updated then Bump(old(locks), id) else old(locks))
    {
      if id !in rows || rows[id].status != expected { return NoRows; }
      if id in locks.holder { return Waits; }
      rows := rows[id := rows[id].(status := next)];
      locks := Bump(locks, id);
      return Updated;
    }

    /** The relative UPDATE that releases a reservation, with CHECK (refunded_amount >= 0). */
    method ReleaseRefundAmount(id: Id, amount: int) returns (res: WriteResult)
      modifies this`rows, this`locks
      ensures res == (if id !in old(rows) || old(rows)[id].refundedAmount < amount then NoRows
                      else if id in old(locks).holder then Waits else Updated)
      ensures rows == (if res == Updated then old(rows)[id := GiveBack(old(rows)[id], amount)] else old(rows))
      ensures locks == (if res == Updated then Bump(old(locks), id) else old(locks))
    {
      if id !in rows || rows[id].refundedAmount < amount { return NoRows; }
      if id in locks.holder { return Waits; }
      rows := rows[id := GiveBack(rows[id], amount)];
      locks := Bump(locks, id);
      return Updated;
    }

    /** UPDATE refunds SET status WHERE id = $1, on its own. */
    method UpdateRefundStatus(rid: Id, status: RefundStatus)
      modifies this`refunds
      ensures refunds == (if rid in old(refunds) then old(refunds)[rid := old(refunds)[rid].(status := status)]
                          else old(refunds))
    {
      if rid in refunds { refunds := refunds[rid := refunds[rid].(status := status)]; }
    }
  }
}
