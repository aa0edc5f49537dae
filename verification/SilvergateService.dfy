/** The provider's service code, statement by statement, against a database that other clients
    use at the same time. Each call is proved to be a program of the step machine whose caller
    is told exactly what the machine put on record for it. */
module SilvergateService {
  import opened Base
  import opened Transactions
  import opened Book
  import opened RowStore
  import opened Ledger
  import opened LedgerProofs
  import opened LedgerTheorems
  import opened LedgerMoney
  import opened Database

  /** What a caller gets: a definite reply, or an error that says nothing (database, conflict, timeout). */
  datatype Answer = Verdict(reply: Reply) | Failed

  function Told(answer: Answer, op: Op): seq<Entry> {
    if answer.Verdict? then [Entry(op, answer.reply)] else []
  }

  /** The in-memory copy of a row that a request works on. */
  class Entity {
    const read: Transaction
    var status: Status
    var idempotencyKey: string
    var refundedAmount: int

    constructor (row: Transaction)
      ensures Row() == row
    {
      read := row;
      status, idempotencyKey, refundedAmount := row.status, row.idempotencyKey, row.refundedAmount;
    }

    function Row(): Transaction
      reads this
    {
      read.(status := status, idempotencyKey := idempotencyKey, refundedAmount := refundedAmount)
    }

    method MarkCapturePending(key: string) returns (ok: bool)
      modifies this
      ensures ok <==> Transactions.MarkCapturePending(old(Row()), key).Some?
      ensures Row() == if ok then Transactions.MarkCapturePending(old(Row()), key).value else old(Row())
    {
      if status != Authorized { return false; }
      status, idempotencyKey := CapturePending, key;
      return true;
    }

    method MarkVoided() returns (ok: bool)
      modifies this
      ensures ok <==> Transactions.MarkVoided(old(Row())).Some?
      ensures Row() == if ok then Transactions.MarkVoided(old(Row())).value else old(Row())
    {
      if status != Authorized { return false; }
      status := Voided;
      return true;
    }

    method ReserveRefund(amount: int)
      modifies this
      ensures Row() == Reserve(old(Row()), amount)
    {
      refundedAmount := refundedAmount + amount;
      status := if refundedAmount >= read.amount then Refunded else PartiallyRefunded;
    }
  }

  /** A goroutine step that can proceed is done at once and put on record. */
  lemma GoroutineStep(l: Ledger, op: Op)
    requires (op.SettleDoes? || op.RefundDoes?) && Do(l.book, op).reply != NotEnabled
    requires WrittenRow(l.book, op).Some? ==> WrittenRow(l.book, op).value !in l.locks.holder
    ensures var l' := Step(l, Alone(op)); var row := WrittenRow(l.book, op);
      && l'.book == Do(l.book, op).book && l'.history == l.history + [Entry(op, Do(l.book, op).reply)]
      && l'.locks == if row.Some? then Bump(l.locks, row.value) else l.locks
  {}

  lemma ReleaseDoes(b: Book, rid: Id)
    requires JobPhase(b, rid).Releasing? && ReleaseFits(b, rid)
    ensures var id, op := b.refunds[rid].transactionId, RefundDoes(rid, Release); var b' := Do(b, op).book;
      && Do(b, op).reply == Accepted && WrittenRow(b, op) == Some(id) && JobPhase(b', rid) == Unnotified
      && b'.txs == b.txs[id := GiveBack(b.txs[id], b.refunds[rid].amount)] && b'.refunds == b.refunds
  {}

  /** The settle goroutine's amount is that of an accepted capture. */
  lemma {:induction false} AskedForACapture(es: seq<Event>, id: Id)
    requires id in Run(INIT, es).book.settles
    ensures var l := Run(INIT, es); exists en :: en in l.history && CapturesFor(en, id, l.book.settles[id].amount)
  {
    BankAskedOnce(es, id, "");
    var l := Run(INIT, es);
    var i :| 0 <= i < |l.history| && CapturesFor(l.history[i], id, l.book.settles[id].amount);
    assert l.history[i] in l.history;
  }

  lemma StepWritesOneRow(b: Book, op: Op)
    requires (op.SettleDoes? || op.RefundDoes?) && WrittenRow(b, op).None?
    ensures Do(b, op).book.txs == b.txs
  {}

  /** What settleAsync leaves on record after the bank's answer. */
  function SettleRecord(id: Id, written: bool, reported: bool): seq<Entry> {
    if !written then [Entry(SettleDoes(id, SettleLost), Accepted)]
    else [Entry(SettleDoes(id, SettleWrite), Accepted)]
         + [Entry(SettleDoes(id, if reported then SettleNotify else SettleLost), Accepted)]
  }

  /** How far a refund goroutine came: not even the status was written, or some releases failed,
      one went through, the report went out. */
  datatype RefundEnd = Unwritten | Finished(failures: nat, released: bool, reported: bool)

  /** A refused refund is released unless all attempts fail; an accepted one is never released. */
  predicate FitsAnswer(ok: bool, end: RefundEnd) {
    end.Finished? ==>
      && (ok ==> end.failures == 0 && !end.released)
      && (!ok ==> end.failures <= MAX_RELEASE_ATTEMPTS && (end.released <==> end.failures < MAX_RELEASE_ATTEMPTS))
  }

  function FailedRelease(rid: Id): Entry {
    Entry(RefundDoes(rid, ReleaseFails), NotFound)
  }

  function Attempts(rid: Id, failures: nat, released: bool): seq<Entry> {
    seq(failures, _ => FailedRelease(rid)) + (if released then [Entry(RefundDoes(rid, Release), Accepted)] else [])
  }

  lemma AttemptsGrow(rid: Id, failures: nat, record: seq<Entry>)
    ensures record + Attempts(rid, 0, false) == record
    ensures record + Attempts(rid, failures, false) + [FailedRelease(rid)]
        == record + Attempts(rid, failures + 1, false)
    ensures record + Attempts(rid, failures, false) + [Entry(RefundDoes(rid, Release), Accepted)]
         == record + Attempts(rid, failures, true)
  {}

  /** What refundAsync leaves on record after the bank's answer. */
  function RefundRecord(rid: Id, end: RefundEnd): seq<Entry> {
    if end.Unwritten? then [Entry(RefundDoes(rid, RefundLost), Accepted)]
    else
      [Entry(RefundDoes(rid, RefundWrite), Accepted)] + Attempts(rid, end.failures, end.released)
      + [Entry(RefundDoes(rid, if end.reported then RefundNotify else RefundLost), Accepted)]
  }

  /** The goroutine an operation belongs to stands here. */
  function PhaseOf(b: Book, op: Op): Phase {
    match op
    case SettleDoes(id, _) => SettlePhase(b, id)
    case RefundDoes(rid, _) => JobPhase(b, rid)
    case _ => Ended
  }

  /** The step is possible, touches neither table, and takes its goroutine to `next`. */
  predicate Quietly(b: Book, op: Op, next: Phase) {
    && (op.SettleDoes? || op.RefundDoes?) && WrittenRow(b, op).None?
    && Do(b, op).reply == Accepted && Do(b, op).book.refunds == b.refunds && PhaseOf(Do(b, op).book, op) == next
  }

  lemma SettleSteps(b: Book, id: Id, ok: bool)
    requires SettlePhase(b, id) != Ended
    ensures Quietly(b, SettleDoes(id, SettleLost), Ended)
    ensures SettlePhase(b, id) == AtBank ==> Quietly(b, SettleDoes(id, SettleBank(ok)), Answered(ok))
    ensures SettlePhase(b, id) == Unnotified ==> Quietly(b, SettleDoes(id, SettleNotify), Ended)
  {}

  lemma RefundSteps(b: Book, rid: Id, ok: bool)
    requires JobPhase(b, rid) != Ended
    ensures Quietly(b, RefundDoes(rid, RefundLost), Ended)
    ensures JobPhase(b, rid) == AtBank ==> Quietly(b, RefundDoes(rid, RefundBank(ok)), Answered(ok))
    ensures JobPhase(b, rid) == Unnotified ==> Quietly(b, RefundDoes(rid, RefundNotify), Ended)
  {}

  lemma InTurn(a: seq<Entry>, b: seq<Entry>, c: seq<Entry>)
    ensures (a + b) + c == a + (b + c)
  {}

  /** What the bank is asked, and about how much. */
  datatype BankCall = SettleOf(id: Id, amount: int) | PayBack(id: Id, amount: int) | VoidOf(id: Id)

  class Acquirer {
    var answers: seq<bool>
    var asked: seq<BankCall>

    constructor (answers: seq<bool>)
      ensures this.answers == answers && asked == []
    {
      this.answers, asked := answers, [];
    }

    method Ask(call: BankCall) returns (ok: bool)
      modifies this
      ensures ok == FaultAt(old(answers), 0) && asked == old(asked) + [call]
    {
      ok := answers != [] && answers[0];
      if answers != [] { answers := answers[1..]; }
      asked := asked + [call];
    }
  }

  class Service {
    const db: Postgres
    const acquirer: Acquirer
    const faults: Oracle

    constructor (db: Postgres, acquirer: Acquirer, faults: Oracle)
      ensures this.db == db && this.acquirer == acquirer && this.faults == faults
    {
      this.db, this.acquirer, this.faults := db, acquirer, faults;
    }

    /** The caller of `sid` was told what the machine recorded, and its database transaction is over. */
    twostate predicate Settled(sid: Id, answer: Answer, op: Op)
      reads db
    {
      && db.Valid() && sid !in db.ledger.sessions && old(db.trace) <= db.trace
      && Recorded(db.trace, Caller(sid)) == Recorded(old(db.trace), Caller(sid)) + Told(answer, op)
    }

    /** A statement of `sid` went through and the call is at `stage`; or the call is over with this answer. */
    twostate predicate GoesOn(sid: Id, new over: Option<Answer>, stage: Stage, rid: Id)
      requires sid in old(db.ledger).sessions
      reads db
    {
      var s := old(db.ledger).sessions[sid];
      && db.Valid() && old(db.trace) <= db.trace
      && if over.None? then
           && sid in db.ledger.sessions && db.ledger.sessions[sid] == s.(stage := stage)
           && Recorded(db.trace, Caller(sid)) == Recorded(old(db.trace), Caller(sid))
         else
           && sid !in db.ledger.sessions && over.value != Verdict(Accepted)
           && Recorded(db.trace, Caller(sid)) == Recorded(old(db.trace), Caller(sid))
                + Told(over.value, OpOf(s.id, s.call, rid, true))
    }

    /** Rolls the database transaction of `sid` back after an error. */
    method GiveUp(sid: Id, id: Id)
      requires db.Valid() && sid in db.ledger.sessions && db.ledger.sessions[sid].id == id
      modifies db
      ensures db.Valid() && sid !in db.ledger.sessions && db.trace == old(db.trace) + [Abort(sid)]
      ensures Recorded(db.trace, Caller(sid)) == Recorded(old(db.trace), Caller(sid))
    {
      SessionFacts(db.trace, sid);
      db.RollbackWork(sid, id);
      db.Did(Abort(sid));
    }

    /** The UPDATE of a call. `None`: written, go on; otherwise the call is over with this answer. */
    method WriteRow(sid: Id, id: Id, a: Assignment, snapshot: Option<nat>) returns (over: Option<Answer>)
      requires db.Valid() && sid in db.ledger.sessions
      requires var s := db.ledger.sessions[sid];
        s.id == id && ReadyToUpdate(s) && Assign(s.seen, a) == Planned(s.call, s.seen) && snapshot == SnapshotOf(s)
      modifies db, faults
      ensures GoesOn(sid, over, Written, "")
    {
      db.Others(Caller(sid));
      var broken := faults.Next();
      if broken { GiveUp(sid, id); return Some(Failed); }
      over := WriteNow(sid, id, a, snapshot);
    }

    method WriteNow(sid: Id, id: Id, a: Assignment, snapshot: Option<nat>) returns (over: Option<Answer>)
      requires db.Valid() && sid in db.ledger.sessions
      requires var s := db.ledger.sessions[sid];
        s.id == id && ReadyToUpdate(s) && Assign(s.seen, a) == Planned(s.call, s.seen) && snapshot == SnapshotOf(s)
      modifies db
      ensures GoesOn(sid, over, Written, "")
    {
      SessionFacts(db.trace, sid);
      UpdateDecides(db.ledger, sid, a);
      var res := db.Update(sid, id, a, snapshot);
      match res
      case Updated => db.DidFor(UpdateRow(sid), Caller(sid), []); over := None;
      case Waits => GiveUp(sid, id); over := Some(Failed);
      case SerializationFailure => db.DidFor(UpdateRow(sid), Caller(sid), []); over := Some(Failed);
      case UniqueViolation =>
        db.RollbackWork(sid, id);
        db.Did(UpdateRow(sid));
        over := Some(Verdict(DuplicateIdempotency));
      case NoRows => assert false;
    }

    /** The COMMIT of a call whose statements have all gone through. */
    method CommitCall(sid: Id, id: Id, inserted: map<Id, Refund>) returns (answer: Answer)
      requires db.Valid() && sid in db.ledger.sessions
      requires var s := db.ledger.sessions[sid]; s.id == id && ReadyToCommit(s) && inserted == RefundRow(s)
      modifies db, faults
      ensures var s := old(db.ledger).sessions[sid]; Settled(sid, answer, OpOf(id, s.call, RidOf(s), true))
    {
      db.Others(Caller(sid));
      var broken := faults.Next();
      if broken { GiveUp(sid, id); return Failed; }
      CommitNow(sid, id, inserted);
      return Verdict(Accepted);
    }

    method CommitNow(sid: Id, id: Id, inserted: map<Id, Refund>)
      requires db.Valid() && sid in db.ledger.sessions
      requires var s := db.ledger.sessions[sid]; s.id == id && ReadyToCommit(s) && inserted == RefundRow(s)
      modifies db
      ensures var s := old(db.ledger).sessions[sid]; Settled(sid, Verdict(Accepted), OpOf(id, s.call, RidOf(s), true))
    {
      SessionFacts(db.trace, sid);
      CommitDecides(db.ledger, sid);
      CommitInstalls(db.ledger, sid);
      db.CommitWork(id, inserted);
      db.Did(Commit(sid));
    }

    /** Inserts a row with the acquirer's verdict; an amount below one never gets past the controller. */
    method Authorize(id: Id, req: AuthRequest, verdict: Transactions.Verdict) returns (answer: Answer)
      requires db.Valid()
      modifies db, faults
      ensures db.Valid() && if answer.Failed? then db.trace == old(db.trace) else
        db.trace == old(db.trace) + [Alone(Op.Authorize(id, req, verdict))]
        && answer.reply == Do(old(db.ledger).book, Op.Authorize(id, req, verdict)).reply
    {
      if req.amount < 1 {
        db.Did(Alone(Op.Authorize(id, req, verdict)));
        return Verdict(BadRequest);
      }
      var broken := faults.Next();
      if broken { return Failed; }
      var purchase := req.purchaseKey != "" && req.productId.Some?;
      var row := Transaction(req.merchantId, req.orderRef, req.amount, req.currency, req.cardToken,
          Authorized, "", "", "", None, 0);
      if verdict.Decline? { row := row.(status := Declined, declineReason := verdict.reason); }
      if purchase { row := row.(purchaseKey := req.purchaseKey, productId := req.productId); }
      answer := StoreRow(id, req, verdict, row);
    }

    method StoreRow(id: Id, req: AuthRequest, verdict: Transactions.Verdict, row: Transaction) returns (answer: Answer)
      requires db.Valid() && req.amount >= 1 && row == NewTransaction(req, verdict)
      modifies db
      ensures db.Valid() && db.trace == old(db.trace) + [Alone(Op.Authorize(id, req, verdict))]
      ensures answer.Verdict? && answer.reply == Do(old(db.ledger).book, Op.Authorize(id, req, verdict)).reply
    {
      var res := db.InsertRow(id, row);
      db.Did(Alone(Op.Authorize(id, req, verdict)));
      match res
      case Stored => return Verdict(Accepted);
      case IdTaken => return Verdict(DuplicateIdempotency);
      case PurchaseKeyTaken => return Verdict(PurchaseConflict);
    }

    /** The first statement of a RepeatableRead call; what the service makes of the row decides if the call goes on. */
    method Read(sid: Id, id: Id, call: Call) returns (row: Option<Transaction>, snapshot: nat)
      requires db.Valid() && sid !in db.ledger.sessions && !call.VoidCall? && (call.RefundCall? ==> call.amount >= 1)
      modifies db
      ensures db.Valid() && db.trace == old(db.trace) + [Begin(sid, id, call)]
      ensures
        if row.Some? && Validate(call, row.value).Accepted? then
          && sid in db.ledger.sessions && db.ledger.sessions[sid] == Session(id, call, row.value, snapshot, Reading)
          && Recorded(db.trace, Caller(sid)) == Recorded(old(db.trace), Caller(sid))
        else
          && sid !in db.ledger.sessions
          && Recorded(db.trace, Caller(sid)) == Recorded(old(db.trace), Caller(sid))
             + [Entry(OpOf(id, call, "", true), if row.None? then NotFound else Validate(call, row.value))]
    {
      BeginDecides(db.ledger, sid, id, call);
      row, snapshot := db.Select(id);
      db.Did(Begin(sid, id, call));
    }

    /** Authorized rows become capture_pending under a RepeatableRead snapshot; settlement starts after the commit. */
    method Capture(sid: Id, id: Id, amount: int, key: string) returns (answer: Answer)
      requires db.Valid() && sid !in db.ledger.sessions
      modifies db, faults
      ensures Settled(sid, answer, Op.Capture(id, key, amount))
    {
      var row, snapshot := Read(sid, id, CaptureCall(key, amount));
      if row.None? { return Verdict(NotFound); }
      var tx := new Entity(row.value);
      var ok := tx.MarkCapturePending(key);
      if !ok { return Verdict(InvalidTransition); }
      var over := WriteRow(sid, id, SetStatus(tx.status, tx.idempotencyKey), Some(snapshot));
      if over.Some? { return over.value; }
      answer := CommitCall(sid, id, map[]);
    }

    /** Reserves the amount and inserts the refund row in one database transaction; the bank is asked afterwards. */
    method Refund(sid: Id, id: Id, amount: int, key: string, rid: Id) returns (answer: Answer, ghost named: Id)
      requires db.Valid() && sid !in db.ledger.sessions
      modifies db, faults
      ensures Settled(sid, answer, RefundOp(id, named, amount, key))
      ensures answer == Verdict(Accepted) ==> named == rid
    {
      named := "";
      if amount < 1 {
        db.Did(Begin(sid, id, RefundCall(amount, key)));
        return Verdict(BadRequest), named;
      }
      var row, snapshot := Read(sid, id, RefundCall(amount, key));
      if row.None? { return Verdict(NotFound), named; }
      var tx := new Entity(row.value);
      if tx.status != Captured && tx.status != PartiallyRefunded { return Verdict(NotRefundable), named; }
      var remaining := row.value.amount - tx.refundedAmount;
      if amount > remaining { return Verdict(ExceedsAmount), named; }
      tx.ReserveRefund(amount);
      answer, named := WriteRefund(sid, id, tx, snapshot, rid);
    }

    /** The three statements that make a validated refund: reserve, insert, commit. */
    method WriteRefund(sid: Id, id: Id, tx: Entity, snapshot: nat, rid: Id) returns (answer: Answer, ghost named: Id)
      requires db.Valid() && sid in db.ledger.sessions
      requires var s := db.ledger.sessions[sid];
        && s.id == id && s.call.RefundCall? && s.stage.Reading? && snapshot == s.seenVersion
        && tx.Row() == Planned(s.call, s.seen)
      modifies db, faults
      ensures var s := old(db.ledger).sessions[sid]; Settled(sid, answer, OpOf(id, s.call, named, true))
      ensures answer == Verdict(Accepted) ==> named == rid
    {
      var over := WriteRow(sid, id, SetRefund(tx.status, tx.refundedAmount), Some(snapshot));
      if over.Some? { return over.value, ""; }
      over := InsertRefund(sid, id, rid);
      if over.Some? { return over.value, rid; }
      answer := CommitCall(sid, id, map[rid := NewRefund(db.ledger.sessions[sid])]);
      named := rid;
    }

    /** The INSERT of the refund row; `None`: inserted, go on. */
    method InsertRefund(sid: Id, id: Id, rid: Id) returns (over: Option<Answer>)
      requires db.Valid() && sid in db.ledger.sessions
      requires var s := db.ledger.sessions[sid]; s.id == id && s.call.RefundCall? && s.stage.Written?
      modifies db, faults
      ensures GoesOn(sid, over, Inserted(rid), rid)
    {
      db.Others(Caller(sid));
      var broken := faults.Next();
      if broken { GiveUp(sid, id); return Some(Failed); }
      over := InsertNow(sid, id, rid);
    }

    method InsertNow(sid: Id, id: Id, rid: Id) returns (over: Option<Answer>)
      requires db.Valid() && sid in db.ledger.sessions
      requires var s := db.ledger.sessions[sid]; s.id == id && s.call.RefundCall? && s.stage.Written?
      modifies db
      ensures GoesOn(sid, over, Inserted(rid), rid)
    {
      SessionFacts(db.trace, sid);
      var res := db.InsertRefundRow(rid, NewRefund(db.ledger.sessions[sid]));
      match res
      case Waits => GiveUp(sid, id); over := Some(Failed);
      case UniqueViolation =>
        db.RollbackWork(sid, id);
        db.Did(Event.InsertRefund(sid, rid));
        over := Some(Verdict(DuplicateIdempotency));
      case Updated =>
        db.Did(Event.InsertRefund(sid, rid));
        over := None;
      case NoRows => assert false;
      case SerializationFailure => assert false;
    }

    /** The bank is asked while the row lock is held. */
    method Void(sid: Id, id: Id) returns (answer: Answer, ghost bankOk: bool)
      requires db.Valid() && sid !in db.ledger.sessions
      modifies db, faults, acquirer
      ensures Settled(sid, answer, Op.Void(id, bankOk))
      ensures acquirer.asked == old(acquirer.asked) || acquirer.asked == old(acquirer.asked) + [VoidOf(id)]
      ensures answer == Verdict(Accepted) || answer == Verdict(BankRefused) ==>
        acquirer.asked == old(acquirer.asked) + [VoidOf(id)]
    {
      bankOk := true;
      var row, busy := ReadForUpdate(sid, id);
      if busy { return Failed, bankOk; }
      if row.None? { return Verdict(NotFound), bankOk; }
      var tx := new Entity(row.value);
      var ok := tx.MarkVoided();
      if !ok { return Verdict(InvalidTransition), bankOk; }
      answer, bankOk := VoidLocked(sid, id, tx);
    }

    method VoidLocked(sid: Id, id: Id, tx: Entity) returns (answer: Answer, ghost bankOk: bool)
      requires db.Valid() && sid in db.ledger.sessions
      requires var s := db.ledger.sessions[sid];
        s.id == id && s.call.VoidCall? && s.stage.Reading? && tx.Row() == Planned(s.call, s.seen)
      modifies db, faults, acquirer
      ensures Settled(sid, answer, Op.Void(id, bankOk)) && acquirer.asked == old(acquirer.asked) + [VoidOf(id)]
    {
      db.Others(Caller(sid));
      var approved := AskBank(sid, id);
      bankOk := approved;
      if !approved { return Verdict(BankRefused), bankOk; }
      var over := WriteRow(sid, id, SetStatus(tx.status, tx.idempotencyKey), None);
      if over.Some? { return over.value, bankOk; }
      answer := CommitCall(sid, id, map[]);
    }

    /** SELECT ... FOR UPDATE; a row that cannot be voided is let go at once. */
    method ReadForUpdate(sid: Id, id: Id) returns (row: Option<Transaction>, busy: bool)
      requires db.Valid() && sid !in db.ledger.sessions
      modifies db
      ensures db.Valid() && old(db.trace) <= db.trace
      ensures
        if !busy && row.Some? && Validate(VoidCall, row.value).Accepted? then
          && sid in db.ledger.sessions && db.ledger.sessions[sid].call == VoidCall
          && db.ledger.sessions[sid].id == id && db.ledger.sessions[sid].seen == row.value
          && db.ledger.sessions[sid].stage == Reading
          && Recorded(db.trace, Caller(sid)) == Recorded(old(db.trace), Caller(sid))
        else
          && sid !in db.ledger.sessions
          && Recorded(db.trace, Caller(sid)) == Recorded(old(db.trace), Caller(sid))
             + (if busy then []
                else [Entry(Op.Void(id, true), if row.None? then NotFound else Validate(VoidCall, row.value))])
    {
      NoLockWithoutSession(db.trace, sid, id);
      var locked := db.SelectForUpdate(sid, id);
      if locked == Busy { return None, true; }
      if locked.NotThere? {
        NothingToVoid(sid, id);
        return None, false;
      }
      BeginDecides(db.ledger, sid, id, VoidCall);
      if locked.row.status != Authorized { db.RollbackWork(sid, id); }
      db.Did(Begin(sid, id, VoidCall));
      return Some(locked.row), false;
    }

    method NothingToVoid(sid: Id, id: Id)
      requires db.Valid() && sid !in db.ledger.sessions && id !in db.rows && Free(db.locks, sid, id)
      modifies db
      ensures db.Valid() && old(db.trace) <= db.trace && sid !in db.ledger.sessions
      ensures Recorded(db.trace, Caller(sid)) == Recorded(old(db.trace), Caller(sid))
          + [Entry(Op.Void(id, true), NotFound)]
    {
      BeginDecides(db.ledger, sid, id, VoidCall);
      db.Did(Begin(sid, id, VoidCall));
    }

    /** The acquirer's answer to a void; a refusal ends the database transaction. */
    method AskBank(sid: Id, id: Id) returns (approved: bool)
      requires db.Valid() && sid in db.ledger.sessions
      requires var s := db.ledger.sessions[sid]; s.id == id && s.call.VoidCall? && s.stage.Reading?
      modifies db, acquirer
      ensures db.Valid() && old(db.trace) <= db.trace && acquirer.asked == old(acquirer.asked) + [VoidOf(id)]
      ensures
        if approved then
          && sid in db.ledger.sessions && db.ledger.sessions[sid] == old(db.ledger).sessions[sid].(stage := Approved)
          && Recorded(db.trace, Caller(sid)) == Recorded(old(db.trace), Caller(sid))
        else
          && sid !in db.ledger.sessions
          && Recorded(db.trace, Caller(sid)) == Recorded(old(db.trace), Caller(sid))
               + [Entry(Op.Void(id, false), BankRefused)]
    {
      approved := acquirer.Ask(VoidOf(id));
      SessionFacts(db.trace, sid);
      if !approved { db.RollbackWork(sid, id); }
      db.Did(AskVoid(sid, approved));
    }

    // The background goroutines.

    /** The record of the goroutine `who` since the call, and its end. */
    twostate predicate Did(who: Owner, new done: seq<Entry>)
      reads db
    {
      && db.Valid() && old(db.trace) <= db.trace
      && Recorded(db.trace, who) == Recorded(old(db.trace), who) + done
    }

    /** A goroutine step that touches neither table. */
    method Note(op: Op, next: Phase)
      requires db.Valid() && Quietly(db.ledger.book, op, next)
      modifies db
      ensures Did(OwnerOf(Alone(op)), [Entry(op, Accepted)]) && PhaseOf(db.ledger.book, op) == next
    {
      GoroutineStep(db.ledger, op);
      StepWritesOneRow(db.ledger.book, op);
      db.DidFor(Alone(op), OwnerOf(Alone(op)), [Entry(op, Accepted)]);
    }

    /** Asks the bank to settle the amount of the capture, then moves the row on with a compare-and-set and reports. The
        compare-and-set cannot miss: only a failing statement keeps the goroutine from reporting. */
    method SettleAsync(id: Id, amount: int) returns (ok: bool, written: bool, reported: bool)
      requires db.Valid() && SettlePhase(db.ledger.book, id) == AtBank && db.ledger.book.settles[id].amount == amount
      modifies db, faults, acquirer
      ensures acquirer.asked == old(acquirer.asked) + [SettleOf(id, amount)]
      ensures exists en :: en in old(db.ledger).history && CapturesFor(en, id, amount)
      ensures Did(Settler(id), [Entry(SettleDoes(id, SettleBank(ok)), Accepted)] + SettleRecord(id, written, reported))
      ensures SettlePhase(db.ledger.book, id) == Ended
    {
      ok := AskSettle(id, amount);
      written, reported := FinishSettle(id, ok);
      InTurn(Recorded(old(db.trace), Settler(id)), [Entry(SettleDoes(id, SettleBank(ok)), Accepted)],
             SettleRecord(id, written, reported));
    }

    method FinishSettle(id: Id, ok: bool) returns (written: bool, reported: bool)
      requires db.Valid() && SettlePhase(db.ledger.book, id) == Answered(ok)
      modifies db, faults
      ensures Did(Settler(id), SettleRecord(id, written, reported))
      ensures SettlePhase(db.ledger.book, id) == Ended
    {
      written := SettleRow(id, ok);
      if !written { return written, false; }
      reported := SettleReport(id);
      InTurn(Recorded(old(db.trace), Settler(id)), [Entry(SettleDoes(id, SettleWrite), Accepted)],
             [Entry(SettleDoes(id, if reported then SettleNotify else SettleLost), Accepted)]);
    }

    method AskSettle(id: Id, amount: int) returns (ok: bool)
      requires db.Valid() && SettlePhase(db.ledger.book, id) == AtBank && db.ledger.book.settles[id].amount == amount
      modifies db, acquirer
      ensures acquirer.asked == old(acquirer.asked) + [SettleOf(id, amount)]
      ensures exists en :: en in old(db.ledger).history && CapturesFor(en, id, amount)
      ensures Did(Settler(id), [Entry(SettleDoes(id, SettleBank(ok)), Accepted)])
      ensures SettlePhase(db.ledger.book, id) == Answered(ok)
    {
      AskedForACapture(db.trace, id);
      ok := acquirer.Ask(SettleOf(id, amount));
      SettleSteps(db.ledger.book, id, ok);
      Note(SettleDoes(id, SettleBank(ok)), Answered(ok));
      db.Others(Settler(id));
    }

    method SettleRow(id: Id, ok: bool) returns (written: bool)
      requires db.Valid() && SettlePhase(db.ledger.book, id) == Answered(ok)
      modifies db, faults
      ensures Did(Settler(id), [Entry(SettleDoes(id, if written then SettleWrite else SettleLost), Accepted)])
      ensures SettlePhase(db.ledger.book, id) == if written then Unnotified else Ended
    {
      var broken := faults.Next();
      written := false;
      if !broken { written := SettleNow(id, ok); }
      if !written { SettleGivesUp(id); }
    }

    method SettleGivesUp(id: Id)
      requires db.Valid() && SettlePhase(db.ledger.book, id) != Ended
      modifies db
      ensures Did(Settler(id), [Entry(SettleDoes(id, SettleLost), Accepted)])
      ensures SettlePhase(db.ledger.book, id) == Ended
    {
      SettleSteps(db.ledger.book, id, true);
      Note(SettleDoes(id, SettleLost), Ended);
    }

    method SettleNow(id: Id, ok: bool) returns (written: bool)
      requires db.Valid() && SettlePhase(db.ledger.book, id) == Answered(ok)
      modifies db
      ensures Did(Settler(id), if written then [Entry(SettleDoes(id, SettleWrite), Accepted)] else [])
      ensures SettlePhase(db.ledger.book, id) == if written then Unnotified else Answered(ok)
    {
      SettleNeverMisses(db.trace, id);
      var res := db.CompareAndUpdateStatus(id, CapturePending, if ok then Captured else CaptureFailed);
      if res != Updated { return false; }
      GoroutineStep(db.ledger, SettleDoes(id, SettleWrite));
      db.DidFor(Alone(SettleDoes(id, SettleWrite)), Settler(id), [Entry(SettleDoes(id, SettleWrite), Accepted)]);
      return true;
    }

    method SettleReport(id: Id) returns (reported: bool)
      requires db.Valid() && SettlePhase(db.ledger.book, id) == Unnotified
      modifies db, faults
      ensures Did(Settler(id), [Entry(SettleDoes(id, if reported then SettleNotify else SettleLost), Accepted)])
      ensures SettlePhase(db.ledger.book, id) == Ended
    {
      db.Others(Settler(id));
      var broken := faults.Next();
      SettleSteps(db.ledger.book, id, true);
      if broken {
        SettleGivesUp(id);
        return false;
      }
      Note(SettleDoes(id, SettleNotify), Ended);
      return true;
    }

    /** Asks the bank to pay back, records the answer, and gives a refused reservation back in at most three
        attempts before it reports. */
    method RefundAsync(rid: Id) returns (ok: bool, end: RefundEnd)
      requires db.Valid() && JobPhase(db.ledger.book, rid) == AtBank
      modifies db, faults, acquirer
      ensures var r := old(db.refunds)[rid];
        acquirer.asked == old(acquirer.asked) + [PayBack(r.transactionId, r.amount)]
      ensures Did(Refunder(rid), [Entry(RefundDoes(rid, RefundBank(ok)), Accepted)] + RefundRecord(rid, end))
      ensures JobPhase(db.ledger.book, rid) == Ended && FitsAnswer(ok, end)
    {
      ok := AskRefund(rid);
      end := FinishRefund(rid, ok);
      InTurn(Recorded(old(db.trace), Refunder(rid)), [Entry(RefundDoes(rid, RefundBank(ok)), Accepted)],
        RefundRecord(rid, end));
    }

    method AskRefund(rid: Id) returns (ok: bool)
      requires db.Valid() && JobPhase(db.ledger.book, rid) == AtBank
      modifies db, acquirer
      ensures var r := old(db.refunds)[rid];
        acquirer.asked == old(acquirer.asked) + [PayBack(r.transactionId, r.amount)]
      ensures Did(Refunder(rid), [Entry(RefundDoes(rid, RefundBank(ok)), Accepted)])
      ensures JobPhase(db.ledger.book, rid) == Answered(ok)
    {
      var r := db.refunds[rid];
      ok := acquirer.Ask(PayBack(r.transactionId, r.amount));
      RefundSteps(db.ledger.book, rid, ok);
      Note(RefundDoes(rid, RefundBank(ok)), Answered(ok));
      db.Others(Refunder(rid));
    }

    method FinishRefund(rid: Id, ok: bool) returns (end: RefundEnd)
      requires db.Valid() && JobPhase(db.ledger.book, rid) == Answered(ok)
      modifies db, faults
      ensures Did(Refunder(rid), RefundRecord(rid, end))
      ensures JobPhase(db.ledger.book, rid) == Ended && FitsAnswer(ok, end)
    {
      var written := WriteRefundStatus(rid, ok);
      if !written { return Unwritten; }
      var failures, released := ReleaseRefused(rid, ok);
      ghost var most := [Entry(RefundDoes(rid, RefundWrite), Accepted)] + Attempts(rid, failures, released);
      InTurn(Recorded(old(db.trace), Refunder(rid)), [Entry(RefundDoes(rid, RefundWrite), Accepted)],
             Attempts(rid, failures, released));
      var reported := RefundReport(rid);
      end := Finished(failures, released, reported);
      InTurn(Recorded(old(db.trace), Refunder(rid)), most,
             [Entry(RefundDoes(rid, if reported then RefundNotify else RefundLost), Accepted)]);
    }

    method ReleaseRefused(rid: Id, ok: bool) returns (failures: nat, released: bool)
      requires db.Valid() && JobPhase(db.ledger.book, rid) == if ok then Unnotified else Releasing(0)
      modifies db, faults
      ensures Did(Refunder(rid), Attempts(rid, failures, released)) && JobPhase(db.ledger.book, rid) == Unnotified
      ensures FitsAnswer(ok, Finished(failures, released, true))
    {
      failures, released := 0, false;
      if !ok { failures, released := ReleaseAmount(rid); }
    }

    method WriteRefundStatus(rid: Id, ok: bool) returns (written: bool)
      requires db.Valid() && JobPhase(db.ledger.book, rid) == Answered(ok)
      modifies db, faults
      ensures Did(Refunder(rid), [Entry(RefundDoes(rid, if written then RefundWrite else RefundLost), Accepted)])
      ensures JobPhase(db.ledger.book, rid) == if !written then Ended else if ok then Unnotified else Releasing(0)
    {
      var broken := faults.Next();
      if broken {
        RefundGivesUp(rid);
        return false;
      }
      WriteRefundStatusNow(rid, ok);
      return true;
    }

    method WriteRefundStatusNow(rid: Id, ok: bool)
      requires db.Valid() && JobPhase(db.ledger.book, rid) == Answered(ok)
      modifies db
      ensures Did(Refunder(rid), [Entry(RefundDoes(rid, RefundWrite), Accepted)])
      ensures JobPhase(db.ledger.book, rid) == if ok then Unnotified else Releasing(0)
    {
      GoroutineStep(db.ledger, RefundDoes(rid, RefundWrite));
      StepWritesOneRow(db.ledger.book, RefundDoes(rid, RefundWrite));
      db.UpdateRefundStatus(rid, if ok then RefundDone else RefundFailed);
      db.DidFor(Alone(RefundDoes(rid, RefundWrite)), Refunder(rid), [Entry(RefundDoes(rid, RefundWrite), Accepted)]);
    }

    /** A statement failed: the goroutine gives up. */
    method RefundGivesUp(rid: Id)
      requires db.Valid() && JobPhase(db.ledger.book, rid) != Ended
      modifies db
      ensures Did(Refunder(rid), [Entry(RefundDoes(rid, RefundLost), Accepted)])
      ensures JobPhase(db.ledger.book, rid) == Ended
    {
      RefundSteps(db.ledger.book, rid, true);
      Note(RefundDoes(rid, RefundLost), Ended);
    }

    /** A release that fails is tried again; one that goes through is never repeated. */
    method ReleaseAmount(rid: Id) returns (failures: nat, released: bool)
      requires db.Valid() && JobPhase(db.ledger.book, rid) == Releasing(0)
      modifies db, faults
      ensures Did(Refunder(rid), Attempts(rid, failures, released)) && JobPhase(db.ledger.book, rid) == Unnotified
      ensures failures <= MAX_RELEASE_ATTEMPTS && (released <==> failures < MAX_RELEASE_ATTEMPTS)
    {
      failures, released := 0, false;
      AttemptsGrow(rid, 0, Recorded(old(db.trace), Refunder(rid)));
      while failures < MAX_RELEASE_ATTEMPTS && !released
        invariant failures <= MAX_RELEASE_ATTEMPTS && (released ==> failures < MAX_RELEASE_ATTEMPTS)
        invariant Did(Refunder(rid), Attempts(rid, failures, released))
        invariant JobPhase(db.ledger.book, rid)
               == if released || failures == MAX_RELEASE_ATTEMPTS then Unnotified else Releasing(failures)
        decreases MAX_RELEASE_ATTEMPTS - failures, !released
      {
        AttemptsGrow(rid, failures, Recorded(old(db.trace), Refunder(rid)));
        released := TryRelease(rid, failures);
        if !released { failures := failures + 1; }
      }
    }

    method TryRelease(rid: Id, attempt: nat) returns (released: bool)
      requires db.Valid() && JobPhase(db.ledger.book, rid) == Releasing(attempt)
      modifies db, faults
      ensures Did(Refunder(rid), [if released then Entry(RefundDoes(rid, Release), Accepted) else FailedRelease(rid)])
      ensures JobPhase(db.ledger.book, rid)
           == if released || attempt + 1 >= MAX_RELEASE_ATTEMPTS then Unnotified else Releasing(attempt + 1)
    {
      db.Others(Refunder(rid));
      var broken := faults.Next();
      if broken {
        ReleaseFailed(rid, attempt);
        return false;
      }
      released := ReleaseNow(rid, attempt);
    }

    method ReleaseFailed(rid: Id, attempt: nat)
      requires db.Valid() && JobPhase(db.ledger.book, rid) == Releasing(attempt)
      modifies db
      ensures Did(Refunder(rid), [FailedRelease(rid)])
      ensures JobPhase(db.ledger.book, rid)
           == if attempt + 1 >= MAX_RELEASE_ATTEMPTS then Unnotified else Releasing(attempt + 1)
    {
      GoroutineStep(db.ledger, RefundDoes(rid, ReleaseFails));
      StepWritesOneRow(db.ledger.book, RefundDoes(rid, ReleaseFails));
      db.DidFor(Alone(RefundDoes(rid, ReleaseFails)), Refunder(rid), [FailedRelease(rid)]);
    }

    method ReleaseNow(rid: Id, attempt: nat) returns (released: bool)
      requires db.Valid() && JobPhase(db.ledger.book, rid) == Releasing(attempt)
      modifies db
      ensures Did(Refunder(rid), [if released then Entry(RefundDoes(rid, Release), Accepted) else FailedRelease(rid)])
      ensures JobPhase(db.ledger.book, rid)
           == if released || attempt + 1 >= MAX_RELEASE_ATTEMPTS then Unnotified else Releasing(attempt + 1)
    {
      ReleaseNeverOverdraws(db.trace, rid);
      ReleaseDoes(db.ledger.book, rid);
      var r := db.refunds[rid];
      var res := db.ReleaseRefundAmount(r.transactionId, r.amount);
      if res == Updated {
        GoroutineStep(db.ledger, RefundDoes(rid, Release));
        db.DidFor(Alone(RefundDoes(rid, Release)), Refunder(rid), [Entry(RefundDoes(rid, Release), Accepted)]);
        return true;
      }
      ReleaseFailed(rid, attempt);
      return false;
    }

    method RefundReport(rid: Id) returns (reported: bool)
      requires db.Valid() && JobPhase(db.ledger.book, rid) == Unnotified
      modifies db, faults
      ensures Did(Refunder(rid), [Entry(RefundDoes(rid, if reported then RefundNotify else RefundLost), Accepted)])
      ensures JobPhase(db.ledger.book, rid) == Ended
    {
      db.Others(Refunder(rid));
      var broken := faults.Next();
      if broken {
        RefundGivesUp(rid);
        return false;
      }
      Notify(rid);
      return true;
    }

    method Notify(rid: Id)
      requires db.Valid() && JobPhase(db.ledger.book, rid) == Unnotified
      modifies db
      ensures Did(Refunder(rid), [Entry(RefundDoes(rid, RefundNotify), Accepted)])
      ensures JobPhase(db.ledger.book, rid) == Ended
    {
      RefundSteps(db.ledger.book, rid, true);
      Note(RefundDoes(rid, RefundNotify), Ended);
    }
  }
}
