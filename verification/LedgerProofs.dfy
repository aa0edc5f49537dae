/** Every interleaving of the ledger is equivalent to a sequential run. */
module LedgerProofs {
  import opened Base
  import opened Transactions
  import opened Book
  import opened RowStore
  import opened Ledger
  import opened BookProofs

  /** What an open session may rely on. */
  predicate Sees(l: Ledger, s: Session) {
    && s.id in l.book.txs
    && s.seenVersion <= Version(l.locks, s.id)
    && (s.seenVersion == Version(l.locks, s.id) ==> l.book.txs[s.id] == s.seen)
    && Validate(s.call, s.seen).Accepted?
    && (s.call.RefundCall? ==> s.call.amount >= 1)
    && (s.stage.Approved? ==> s.call.VoidCall?)
    && (s.stage.Inserted? ==> s.call.RefundCall?)
  }

  /** A session past its locking statement owns its row, and nobody has committed a write of it since. */
  predicate Owns(l: Ledger, sid: Id, s: Session) {
    HoldsLock(s) ==>
      && s.id in l.locks.holder && l.locks.holder[s.id] == sid
      && s.seenVersion == Version(l.locks, s.id)
      && (Wrote(s) ==> s.id in l.locks.staged && l.locks.staged[s.id] == Planned(s.call, s.seen))
  }

  predicate Sessions(l: Ledger) {
    forall sid :: sid in l.sessions ==> Sees(l, l.sessions[sid]) && Owns(l, sid, l.sessions[sid])
  }

  /** Every lock and every uncommitted image belongs to the session that says so. */
  predicate Backed(l: Ledger) {
    && (forall id :: id in l.locks.holder ==>
          var sid := l.locks.holder[id];
          sid in l.sessions && l.sessions[sid].id == id && HoldsLock(l.sessions[sid]))
    && (forall id :: id in l.locks.staged ==> id in l.locks.holder && Wrote(l.sessions[l.locks.holder[id]]))
  }

  /** Uncommitted images clash neither with committed rows nor with each other. */
  predicate Keys(l: Ledger) {
    forall id :: id in l.locks.staged ==>
      && !KeyTaken(l.book.txs, id, l.locks.staged[id])
      && !KeyInFlight(l.locks.staged, id, l.locks.staged[id])
  }

  /** Uncommitted refund rows clash neither with committed ones nor with each other. */
  predicate Rids(l: Ledger) {
    && (forall sid :: sid in l.sessions && l.sessions[sid].call.RefundCall? && l.sessions[sid].stage.Inserted? ==>
          !RefundTaken(l.book.refunds, l.sessions[sid].stage.rid, NewRefund(l.sessions[sid])))
    && (forall s1, s2 :: s1 in l.sessions && s2 in l.sessions && s1 != s2 && l.sessions[s1].stage.Inserted? ==>
          l.sessions[s1].stage != l.sessions[s2].stage)
  }

  predicate Coherent(l: Ledger) {
    Sessions(l) && Backed(l) && Keys(l) && Rids(l)
  }

  lemma OpenSessions(l: Ledger, sid: Id, s: Session)
    requires Sessions(l) && Backed(l)
    requires sid !in l.sessions && s.stage.Reading? && Sees(l, s) && s.seenVersion == Version(l.locks, s.id)
    requires HoldsLock(s) ==> s.id !in l.locks.holder
    ensures Sessions(Open(l, sid, s))
  {}

  lemma OpenBacked(l: Ledger, sid: Id, s: Session)
    requires Backed(l) && Sessions(l)
    requires sid !in l.sessions && s.stage.Reading? && Sees(l, s) && s.seenVersion == Version(l.locks, s.id)
    requires HoldsLock(s) ==> s.id !in l.locks.holder
    ensures Backed(Open(l, sid, s))
  {}

  lemma OpenKeys(l: Ledger, sid: Id, s: Session)
    requires Keys(l)
    requires sid !in l.sessions && s.stage.Reading? && Sees(l, s) && s.seenVersion == Version(l.locks, s.id)
    requires HoldsLock(s) ==> s.id !in l.locks.holder
    ensures Keys(Open(l, sid, s))
  {}

  lemma OpenRids(l: Ledger, sid: Id, s: Session)
    requires Rids(l)
    requires sid !in l.sessions && s.stage.Reading? && Sees(l, s) && s.seenVersion == Version(l.locks, s.id)
    requires HoldsLock(s) ==> s.id !in l.locks.holder
    ensures Rids(Open(l, sid, s))
  {}

  lemma AdvanceSessions(l: Ledger, sid: Id, stage: Stage)
    requires Sessions(l) && Backed(l)
    requires sid in l.sessions
    requires Sees(l, l.sessions[sid].(stage := stage))
    requires (HoldsLock(l.sessions[sid]) <==> HoldsLock(l.sessions[sid].(stage := stage)))
    requires (Wrote(l.sessions[sid]) <==> stage.Inserted?) && !stage.Written?
    ensures Sessions(Advance(l, sid, stage))
  {}

  lemma AdvanceBacked(l: Ledger, sid: Id, stage: Stage)
    requires Backed(l) && Sessions(l)
    requires sid in l.sessions
    requires (HoldsLock(l.sessions[sid]) <==> HoldsLock(l.sessions[sid].(stage := stage)))
    requires (Wrote(l.sessions[sid]) <==> stage.Inserted?)
    ensures Backed(Advance(l, sid, stage))
  {}

  lemma AdvanceKeys(l: Ledger, sid: Id, stage: Stage)
    requires Keys(l)
    requires sid in l.sessions
    ensures Keys(Advance(l, sid, stage))
  {}

  lemma AdvanceRids(l: Ledger, sid: Id, stage: Stage)
    requires Rids(l)
    requires sid in l.sessions
    requires stage.Inserted? ==>
      l.sessions[sid].call.RefundCall? && !RidInFlight(l, stage.rid)
      && !RefundTaken(l.book.refunds, stage.rid, NewRefund(l.sessions[sid]))
    ensures Rids(Advance(l, sid, stage))
  {}

  lemma WriteOther(l: Ledger, sid: Id, other: Id)
    requires Sessions(l) && sid in l.sessions && other in l.sessions && other != sid
    requires ReadyToUpdate(l.sessions[sid]) && Free(l.locks, sid, l.sessions[sid].id)
    ensures Sees(WriteRow(l, sid), l.sessions[other])
    ensures Owns(WriteRow(l, sid), other, l.sessions[other])
  {}

  lemma WriteSessions(l: Ledger, sid: Id)
    requires Sessions(l) && Backed(l)
    requires sid in l.sessions
    requires ReadyToUpdate(l.sessions[sid]) && Free(l.locks, sid, l.sessions[sid].id)
    requires Version(l.locks, l.sessions[sid].id) == l.sessions[sid].seenVersion
    ensures Sessions(WriteRow(l, sid))
  {
    forall other | other in l.sessions && other != sid
      ensures Sees(WriteRow(l, sid), l.sessions[other]) && Owns(WriteRow(l, sid), other, l.sessions[other])
    {
      WriteOther(l, sid, other);
    }
  }

  lemma WriteBacked(l: Ledger, sid: Id)
    requires Backed(l) && Sessions(l)
    requires sid in l.sessions
    requires Free(l.locks, sid, l.sessions[sid].id)
    ensures Backed(WriteRow(l, sid))
  {}

  lemma WriteKeys(l: Ledger, sid: Id)
    requires Keys(l)
    requires sid in l.sessions
    requires var s := l.sessions[sid];
      !KeyTaken(l.book.txs, s.id, Planned(s.call, s.seen))
      && !KeyInFlight(l.locks.staged, s.id, Planned(s.call, s.seen))
    ensures Keys(WriteRow(l, sid))
  {}

  lemma WriteRids(l: Ledger, sid: Id)
    requires Rids(l)
    requires sid in l.sessions
    ensures Rids(WriteRow(l, sid))
  {}

  lemma RollbackOther(l: Ledger, sid: Id, other: Id)
    requires Sessions(l) && sid in l.sessions && other in l.sessions && other != sid
    ensures Sees(Rollback(l, sid), l.sessions[other])
    ensures Owns(Rollback(l, sid), other, l.sessions[other])
  {}

  lemma RollbackSessions(l: Ledger, sid: Id)
    requires Sessions(l) && Backed(l)
    requires sid in l.sessions
    ensures Sessions(Rollback(l, sid))
  {
    forall other | other in l.sessions && other != sid
      ensures Sees(Rollback(l, sid), l.sessions[other]) && Owns(Rollback(l, sid), other, l.sessions[other])
    {
      RollbackOther(l, sid, other);
    }
  }

  lemma RollbackBacked(l: Ledger, sid: Id)
    requires Backed(l) && Sessions(l)
    requires sid in l.sessions
    ensures Backed(Rollback(l, sid))
  {}

  lemma RollbackKeys(l: Ledger, sid: Id)
    requires Keys(l)
    requires sid in l.sessions
    ensures Keys(Rollback(l, sid))
  {}

  lemma RollbackRids(l: Ledger, sid: Id)
    requires Rids(l)
    requires sid in l.sessions
    ensures Rids(Rollback(l, sid))
  {}

  /** A commit leaves every other session what it relied on: stale readers notice the new version. */
  lemma PublishOther(l: Ledger, sid: Id, other: Id)
    requires Sessions(l) && CanCommit(l, sid) && other in l.sessions && other != sid
    ensures Sees(Publish(l, sid), l.sessions[other])
    ensures Owns(Publish(l, sid), other, l.sessions[other])
  {}

  lemma PublishSessions(l: Ledger, sid: Id)
    requires Sessions(l) && Backed(l)
    requires CanCommit(l, sid)
    ensures Sessions(Publish(l, sid))
  {
    forall other | other in l.sessions && other != sid
      ensures Sees(Publish(l, sid), l.sessions[other]) && Owns(Publish(l, sid), other, l.sessions[other])
    {
      PublishOther(l, sid, other);
    }
  }

  lemma PublishBacked(l: Ledger, sid: Id)
    requires Backed(l) && Sessions(l)
    requires CanCommit(l, sid)
    ensures Backed(Publish(l, sid))
  {}

  lemma PublishKeys(l: Ledger, sid: Id)
    requires Keys(l)
    requires CanCommit(l, sid)
    ensures Keys(Publish(l, sid))
  {
    var l', mine := Publish(l, sid), l.sessions[sid].id;
    forall id | id in l'.locks.staged ensures !KeyTaken(l'.book.txs, id, l'.locks.staged[id]) {
      assert id in l.locks.staged && id != mine;
      assert !KeyClash(l.locks.staged[mine], l.locks.staged[id]);
    }
    forall id | id in l'.locks.staged ensures !KeyInFlight(l'.locks.staged, id, l'.locks.staged[id]) {
      assert id in l.locks.staged;
    }
  }

  lemma PublishRidsOther(l: Ledger, sid: Id, other: Id)
    requires Rids(l) && Sessions(l)
    requires CanCommit(l, sid) && other in l.sessions && other != sid
    requires l.sessions[other].call.RefundCall? && l.sessions[other].stage.Inserted?
    ensures !RefundTaken(Publish(l, sid).book.refunds, l.sessions[other].stage.rid, NewRefund(l.sessions[other]))
  {
    assert HoldsLock(l.sessions[sid]) && HoldsLock(l.sessions[other]);
  }

  lemma PublishRids(l: Ledger, sid: Id)
    requires Rids(l) && Sessions(l)
    requires CanCommit(l, sid)
    ensures Rids(Publish(l, sid))
  {
    forall other | other in l.sessions && other != sid
      && l.sessions[other].call.RefundCall? && l.sessions[other].stage.Inserted?
      ensures !RefundTaken(Publish(l, sid).book.refunds, l.sessions[other].stage.rid, NewRefund(l.sessions[other]))
    {
      PublishRidsOther(l, sid, other);
    }
  }

  // Single statements and goroutine steps.

  /** A single statement rewrites at most the row it waits for, and never a unique key. */
  predicate TouchesOnly(b: Book, b': Book, row: Option<Id>) {
    && (forall id :: id in b.txs ==>
          && id in b'.txs && (row != Some(id) ==> b'.txs[id] == b.txs[id])
          && b'.txs[id].idempotencyKey == b.txs[id].idempotencyKey && b'.txs[id].merchantId == b.txs[id].merchantId)
    && (forall id :: id in b'.txs && id !in b.txs ==> b'.txs[id].idempotencyKey == "")
    && b'.refunds.Keys == b.refunds.Keys
    && (forall rid :: rid in b.refunds ==> SameRefundKey(b'.refunds[rid], b.refunds[rid]))
  }

  predicate IsAlone(op: Op) {
    !op.Capture? && !op.RefundOp? && !op.Void?
  }

  lemma SettleTouches(b: Book, id: Id, step: SettleStep)
    ensures TouchesOnly(b, DoSettle(b, id, step).book, WrittenRow(b, SettleDoes(id, step)))
  {}

  lemma RefundingTouches(b: Book, rid: Id, step: RefundStep)
    ensures TouchesOnly(b, DoRefundJob(b, rid, step).book, WrittenRow(b, RefundDoes(rid, step)))
  {}

  lemma AuthorizeTouches(b: Book, id: Id, req: AuthRequest, verdict: Verdict)
    ensures TouchesOnly(b, DoAuthorize(b, id, req, verdict).book, WrittenRow(b, Authorize(id, req, verdict)))
  {
    var b' := DoAuthorize(b, id, req, verdict).book;
    if b' != b {
      NewTransactionIsUnkeyed(req, verdict);
      assert b' == b.(txs := b.txs[id := NewTransaction(req, verdict)]) && id !in b.txs;
    }
  }

  lemma NewTransactionIsUnkeyed(req: AuthRequest, verdict: Verdict)
    ensures NewTransaction(req, verdict).idempotencyKey == ""
  {}

  lemma {:induction false} AloneTouches(b: Book, op: Op)
    requires IsAlone(op)
    ensures TouchesOnly(b, Do(b, op).book, WrittenRow(b, op))
  {
    match op
    case SettleDoes(id, step) => SettleTouches(b, id, step);
    case RefundDoes(rid, step) => RefundingTouches(b, rid, step);
    case Authorize(id, req, verdict) => AuthorizeTouches(b, id, req, verdict);
    case VoidNotify(_) =>
  }

  /** The ledger after a single statement that wrote `row`, or no row. */
  function Autocommit(l: Ledger, b': Book, row: Option<Id>): Ledger {
    l.(book := b', locks := if row.Some? then Bump(l.locks, row.value) else l.locks)
  }

  lemma AutocommitSessions(l: Ledger, b': Book, row: Option<Id>)
    requires Sessions(l) && TouchesOnly(l.book, b', row) && (row.Some? ==> row.value !in l.locks.holder)
    ensures Sessions(Autocommit(l, b', row))
  {}

  lemma AutocommitBacked(l: Ledger, b': Book, row: Option<Id>)
    requires Backed(l)
    ensures Backed(Autocommit(l, b', row))
  {}

  lemma AutocommitKeys(l: Ledger, b': Book, row: Option<Id>)
    requires Keys(l) && TouchesOnly(l.book, b', row)
    ensures Keys(Autocommit(l, b', row))
  {}

  lemma AutocommitRids(l: Ledger, b': Book, row: Option<Id>)
    requires Rids(l) && TouchesOnly(l.book, b', row)
    ensures Rids(Autocommit(l, b', row))
  {}

  // Every event keeps the sessions coherent.

  lemma LoggedCoherent(l: Ledger, op: Op, reply: Reply)
    requires Coherent(l)
    ensures Coherent(Logged(l, op, reply))
  {}

  lemma RollbackCoherent(l: Ledger, sid: Id)
    requires Coherent(l) && sid in l.sessions
    ensures Coherent(Rollback(l, sid))
  {
    RollbackSessions(l, sid); RollbackBacked(l, sid); RollbackKeys(l, sid); RollbackRids(l, sid);
  }

  lemma BeginCoherent(l: Ledger, sid: Id, id: Id, call: Call)
    requires Coherent(l)
    ensures Coherent(DoBegin(l, sid, id, call))
  {
    if sid !in l.sessions && id in l.book.txs && Validate(call, l.book.txs[id]).Accepted? {
      var s := Session(id, call, l.book.txs[id], Version(l.locks, id), Reading);
      if (call.VoidCall? ==> Free(l.locks, sid, id)) && (call.RefundCall? ==> call.amount >= 1) {
        OpenSessions(l, sid, s); OpenBacked(l, sid, s); OpenKeys(l, sid, s); OpenRids(l, sid, s);
      }
    }
  }

  lemma AdvanceCoherent(l: Ledger, sid: Id, stage: Stage)
    requires Coherent(l) && sid in l.sessions
    requires var s := l.sessions[sid];
      || (stage.Approved? && s.call.VoidCall? && s.stage.Reading?)
      || (stage.Inserted? && s.call.RefundCall? && s.stage.Written?
          && !RidInFlight(l, stage.rid) && !RefundTaken(l.book.refunds, stage.rid, NewRefund(s)))
    ensures Coherent(Advance(l, sid, stage))
  {
    AdvanceSessions(l, sid, stage); AdvanceBacked(l, sid, stage);
    AdvanceKeys(l, sid, stage); AdvanceRids(l, sid, stage);
  }

  lemma UpdateRowCoherent(l: Ledger, sid: Id)
    requires Coherent(l)
    ensures Coherent(DoUpdateRow(l, sid))
  {
    if sid in l.sessions {
      RollbackCoherent(l, sid);
      var s := l.sessions[sid];
      var row := Planned(s.call, s.seen);
      if DoUpdateRow(l, sid) == WriteRow(l, sid) && ReadyToUpdate(s) && Free(l.locks, sid, s.id)
        && Version(l.locks, s.id) == s.seenVersion
        && !KeyInFlight(l.locks.staged, s.id, row) && !KeyTaken(l.book.txs, s.id, row)
      {
        WriteSessions(l, sid); WriteBacked(l, sid); WriteKeys(l, sid); WriteRids(l, sid);
      }
    }
  }

  lemma CommitCoherent(l: Ledger, sid: Id)
    requires Coherent(l)
    ensures Coherent(DoCommit(l, sid))
  {
    if CanCommit(l, sid) {
      PublishSessions(l, sid); PublishBacked(l, sid); PublishKeys(l, sid); PublishRids(l, sid);
      LoggedCoherent(Publish(l, sid), DoCommit(l, sid).history[|l.history|].op, Accepted);
    }
  }

  lemma AloneCoherent(l: Ledger, op: Op)
    requires Coherent(l)
    ensures Coherent(DoAlone(l, op))
  {
    var row, b' := WrittenRow(l.book, op), Do(l.book, op).book;
    if IsAlone(op) && (row.Some? ==> row.value !in l.locks.holder) {
      AloneTouches(l.book, op);
      AutocommitSessions(l, b', row); AutocommitBacked(l, b', row);
      AutocommitKeys(l, b', row); AutocommitRids(l, b', row);
      LoggedCoherent(Autocommit(l, b', row), op, Do(l.book, op).reply);
    }
  }

  lemma StepCoherent(l: Ledger, e: Event)
    requires Coherent(l)
    ensures Coherent(Step(l, e))
  {
    match e
    case Begin(sid, id, call) => BeginCoherent(l, sid, id, call);
    case AskVoid(sid, ok) =>
      if sid in l.sessions && l.sessions[sid].call.VoidCall? && l.sessions[sid].stage.Reading? {
        if ok {
          AdvanceCoherent(l, sid, Approved);
        } else {
          RollbackCoherent(l, sid);
          LoggedCoherent(Rollback(l, sid), Void(l.sessions[sid].id, false), BankRefused);
        }
      }
    case UpdateRow(sid) => UpdateRowCoherent(l, sid);
    case InsertRefund(sid, rid) =>
      if sid in l.sessions && l.sessions[sid].call.RefundCall? && l.sessions[sid].stage.Written?
         && !RidInFlight(l, rid) {
        var s := l.sessions[sid];
        if RefundTaken(l.book.refunds, rid, NewRefund(s)) {
          RollbackCoherent(l, sid);
          LoggedCoherent(Rollback(l, sid), OpOf(s.id, s.call, rid, true), DuplicateIdempotency);
        } else {
          AdvanceCoherent(l, sid, Inserted(rid));
        }
      }
    case Commit(sid) => CommitCoherent(l, sid);
    case Abort(sid) => if sid in l.sessions { RollbackCoherent(l, sid); }
    case Alone(op) => AloneCoherent(l, op);
  }

  // Every event does nothing to the committed ledger, or exactly what one atomic operation does.

  /** Nothing visible happened, or one operation took place atomically with the reply on record. */
  predicate Explained(l: Ledger, l': Ledger) {
    || (l'.history == l.history && l'.book == l.book)
    || (|l'.history| == |l.history| + 1 && l'.history[..|l.history|] == l.history
        && var en := l'.history[|l.history|]; Do(l.book, en.op) == Outcome(en.reply, l'.book))
  }

  /** The row a lock holder has read is still the committed row. */
  lemma LockedRowIsCurrent(l: Ledger, sid: Id)
    requires Coherent(l) && sid in l.sessions && HoldsLock(l.sessions[sid])
    ensures var s := l.sessions[sid];
      s.id in l.book.txs && l.book.txs[s.id] == s.seen && Validate(s.call, s.seen).Accepted?
      && (s.call.RefundCall? ==> s.call.amount >= 1)
    ensures Wrote(l.sessions[sid]) ==> var s := l.sessions[sid];
      s.id in l.locks.staged && l.locks.staged[s.id] == Planned(s.call, s.seen)
      && !KeyTaken(l.book.txs, s.id, Planned(s.call, s.seen))
  {
    assert Sees(l, l.sessions[sid]) && Owns(l, sid, l.sessions[sid]);
  }

  lemma BeginExplained(l: Ledger, sid: Id, id: Id, call: Call)
    ensures Explained(l, DoBegin(l, sid, id, call))
  {}

  lemma AskVoidExplained(l: Ledger, sid: Id, ok: bool)
    requires Coherent(l)
    ensures Explained(l, DoAskVoid(l, sid, ok))
  {
    if sid in l.sessions && HoldsLock(l.sessions[sid]) { LockedRowIsCurrent(l, sid); }
  }

  /** Only a capture brings a key of its own to the unique index. */
  lemma OnlyCapturesClash(l: Ledger, s: Session)
    requires UniqueKeys(l.book.txs) && s.id in l.book.txs && l.book.txs[s.id] == s.seen && !s.call.CaptureCall?
    ensures !KeyTaken(l.book.txs, s.id, Planned(s.call, s.seen))
  {}

  lemma UpdateRowExplained(l: Ledger, sid: Id)
    requires Coherent(l) && UniqueKeys(l.book.txs)
    ensures Explained(l, DoUpdateRow(l, sid))
  {
    if sid in l.sessions {
      var s := l.sessions[sid];
      assert Sees(l, s);
      if Version(l.locks, s.id) == s.seenVersion && !s.call.CaptureCall? { OnlyCapturesClash(l, s); }
    }
  }

  /** On the row it read, a call that validated and met no unique index does what its atomic form does. */
  lemma InstallIsAtomic(b: Book, s: Session, rid: Id)
    requires ReadyToCommit(s) && s.id in b.txs && b.txs[s.id] == s.seen && Validate(s.call, s.seen).Accepted?
    requires s.call.CaptureCall? ==> !KeyTaken(b.txs, s.id, Planned(s.call, s.seen))
    requires s.call.RefundCall? ==>
      s.call.amount >= 1 && s.stage.rid == rid && !RefundTaken(b.refunds, rid, NewRefund(s))
    ensures Do(b, OpOf(s.id, s.call, rid, true)) == Outcome(Accepted, Install(b, s, Planned(s.call, s.seen)))
  {}

  lemma DuplicateRefundIsAtomic(b: Book, s: Session, rid: Id)
    requires s.call.RefundCall? && s.call.amount >= 1
    requires s.id in b.txs && b.txs[s.id] == s.seen && Validate(s.call, s.seen).Accepted?
    requires RefundTaken(b.refunds, rid, NewRefund(s))
    ensures Do(b, OpOf(s.id, s.call, rid, true)) == Outcome(DuplicateIdempotency, b)
  {}

  lemma InsertRefundExplained(l: Ledger, sid: Id, rid: Id)
    requires Coherent(l)
    ensures Explained(l, DoInsertRefund(l, sid, rid))
  {
    if sid in l.sessions && l.sessions[sid].call.RefundCall? && l.sessions[sid].stage.Written? {
      LockedRowIsCurrent(l, sid);
      if RefundTaken(l.book.refunds, rid, NewRefund(l.sessions[sid])) {
        DuplicateRefundIsAtomic(l.book, l.sessions[sid], rid);
      }
    }
  }

  lemma CommitExplained(l: Ledger, sid: Id)
    requires Coherent(l)
    ensures Explained(l, DoCommit(l, sid))
  {
    if CanCommit(l, sid) {
      var s := l.sessions[sid];
      LockedRowIsCurrent(l, sid);
      InstallIsAtomic(l.book, s, if s.stage.Inserted? then s.stage.rid else "");
    }
  }

  lemma {:induction false} StepExplained(l: Ledger, e: Event)
    requires Coherent(l) && UniqueKeys(l.book.txs)
    ensures Explained(l, Step(l, e))
  {
    match e
    case Begin(sid, id, call) => BeginExplained(l, sid, id, call);
    case AskVoid(sid, ok) => AskVoidExplained(l, sid, ok);
    case UpdateRow(sid) => UpdateRowExplained(l, sid);
    case InsertRefund(sid, rid) => InsertRefundExplained(l, sid, rid);
    case Commit(sid) => CommitExplained(l, sid);
    case Abort(sid) =>
    case Alone(op) =>
  }
}
