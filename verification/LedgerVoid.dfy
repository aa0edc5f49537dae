/** When a transaction voided at the bank may still be captured: exactly when the void's database transaction
    ends without its commit. */
module LedgerVoid {
  import opened Base
  import opened Transactions
  import opened Book
  import opened RowStore
  import opened Ledger
  import opened BookProofs
  import opened LedgerProofs
  import opened LedgerTheorems
  import opened LedgerMoney
  import opened LedgerCalls

  /** The bank has voided; the database transaction of the void is still open. */
  predicate VoidedAtBank(l: Ledger, sid: Id) {
    sid in l.sessions && l.sessions[sid].call.VoidCall? && !l.sessions[sid].stage.Reading?
  }

  /** A capture of `id` was accepted in this run. */
  predicate Captures(es: seq<Event>, id: Id) {
    HasCapture(Run(INIT, es).history, id)
  }

  predicate HasCapture(h: seq<Entry>, id: Id) {
    exists en :: en in h && en.op.Capture? && en.op.id == id && en.reply == Accepted
  }

  /** The bank settled it too. */
  predicate Settles(es: seq<Event>, id: Id) {
    var b := Run(INIT, es).book;
    id in b.settles && b.settles[id].answers == [true]
  }

  lemma {:induction false} CapturedIsSettling(h: seq<Entry>, en: Entry, id: Id)
    requires Honest(h) && en in h && en.op.Capture? && en.op.id == id && en.reply == Accepted
    ensures id in After(h).txs && !BeforeCapture(After(h).txs[id].status)
  {
    var most, last := h[..|h| - 1], h[|h| - 1];
    HonestMost(h);
    AfterSound(most);
    StepRows(After(most), last.op);
    if en in most {
      CapturedIsSettling(most, en, id);
      StaysCaptured(After(most), After(h), id);
    } else {
      assert en == last;
      AcceptedCapture(After(most), last.op);
    }
  }

  lemma {:induction false} HonestMost(h: seq<Entry>)
    requires Honest(h) && h != []
    ensures Honest(h[..|h| - 1]) && Do(After(h[..|h| - 1]), h[|h| - 1].op).reply == h[|h| - 1].reply
  {
    var most := h[..|h| - 1];
    forall i | 0 <= i < |most| ensures Do(After(most[..i]), most[i].op).reply == most[i].reply {
      assert most[..i] == h[..i];
    }
  }

  lemma AcceptedCapture(b: Book, op: Op)
    requires op.Capture? && Do(b, op).reply == Accepted
    ensures op.id in Do(b, op).book.txs && Do(b, op).book.txs[op.id].status == CapturePending
  {}

  /** No declared move and no release leads back to before a capture. */
  lemma StaysCaptured(b: Book, b': Book, id: Id)
    requires RowsEvolve(b, b') && id in b.txs && !BeforeCapture(b.txs[id].status)
    ensures id in b'.txs && !BeforeCapture(b'.txs[id].status)
  {}

  lemma {:induction false} NotCapturedBefore(es: seq<Event>, id: Id)
    requires id in Run(INIT, es).book.txs && BeforeCapture(Run(INIT, es).book.txs[id].status)
    ensures !Captures(es, id) && id !in Run(INIT, es).book.settles
  {
    Linearizable(es);
    var l := Run(INIT, es);
    assert RowOk(l.book.txs[id], JobOf(l.book, id));
    if Captures(es, id) {
      var en :| en in l.history && en.op.Capture? && en.op.id == id && en.reply == Accepted;
      CapturedIsSettling(l.history, en, id);
    }
  }

  /** While the void is open, the row is locked and authorized: nobody has captured it. */
  lemma {:induction false} OpenVoidHoldsTheRow(es: seq<Event>, sid: Id)
    requires VoidedAtBank(Run(INIT, es), sid)
    ensures var l := Run(INIT, es); var id := l.sessions[sid].id;
      && id in l.book.txs && l.book.txs[id].status == Authorized && id in l.locks.holder && l.locks.holder[id] == sid
      && !Captures(es, id) && id !in l.book.settles
  {
    RunsCoherent(es);
    var l := Run(INIT, es);
    LockedRowIsCurrent(l, sid);
    assert Owns(l, sid, l.sessions[sid]);
    NotCapturedBefore(es, l.sessions[sid].id);
  }

  /** Only its commit, a rollback, or a failing statement ends the database transaction of such a void. */
  lemma HowVoidsEnd(l: Ledger, sid: Id, e: Event)
    requires VoidedAtBank(l, sid) && sid !in Step(l, e).sessions
    ensures e == Commit(sid) ==> CanCommit(l, sid)
    ensures e != Commit(sid) ==>
      var id := l.sessions[sid].id;
      && Step(l, e).book == l.book && Step(l, e).locks == Unlock(l.locks, id)
      && Step(l, e).sessions == l.sessions - {sid}
  {}

  /** After the commit the row is voided, for good. */
  lemma {:induction false} CommittedVoidIsFinal(es: seq<Event>, sid: Id, more: seq<Event>)
    requires VoidedAtBank(Run(INIT, es), sid) && CanCommit(Run(INIT, es), sid)
    ensures var id := Run(INIT, es).sessions[sid].id; var after := es + [Commit(sid)] + more;
      !Captures(after, id) && id !in Run(INIT, after).book.settles
  {
    var id := Run(INIT, es).sessions[sid].id;
    var es' := es + [Commit(sid)];
    RunOne(es, Commit(sid));
    CommitOverwritesWhatItRead(es, sid);
    AbsorbingForever(es', more, id);
    NotCapturedBefore(es' + more, id);
  }

  /** A key nobody uses, neither in the table nor in a row image on its way into it. */
  lemma FreeKey(l: Ledger, id: Id) returns (key: string)
    ensures forall other :: other in l.book.txs ==> l.book.txs[other].idempotencyKey != key
    ensures CaptureKeyIdle(l, id, key)
  {
    var used := (set id | id in l.book.txs :: l.book.txs[id].idempotencyKey)
              + (set id | id in l.locks.staged :: l.locks.staged[id].idempotencyKey);
    key := FreshString(used);
    forall o | o in l.book.txs ensures l.book.txs[o].idempotencyKey in used {}
    forall o | o in l.locks.staged ensures l.locks.staged[o].idempotencyKey in used {}
  }

  /** An authorized row nobody holds can be captured, and the bank may settle it. */
  lemma {:induction false} CaptureCanHappen(es: seq<Event>, id: Id) returns (more: seq<Event>)
    requires var l := Run(INIT, es); id in l.book.txs && l.book.txs[id].status == Authorized && id !in l.locks.holder
    ensures Captures(es + more, id) && Settles(es + more, id)
  {
    var l := Run(INIT, es);
    var sid := FreshString(l.sessions.Keys);
    var key := FreeKey(l, id);
    var capture := CaptureStatements(sid, id, key, l.book.txs[id].amount);
    UndisturbedCapture(es, sid, id, key, l.book.txs[id].amount);
    more := capture + [Alone(SettleDoes(id, SettleBank(true)))];
    assert es + more == es + capture + [Alone(SettleDoes(id, SettleBank(true)))];
    RecordedCapture(Run(INIT, es + capture), id);
    SettleAfter(es + capture, id);
  }

  lemma {:induction false} RecordedCapture(l: Ledger, id: Id)
    requires l.history != []
    requires var en := l.history[|l.history| - 1]; en.op.Capture? && en.op.id == id && en.reply == Accepted
    ensures HasCapture(l.history, id)
  {
    assert l.history[|l.history| - 1] in l.history;
  }

  lemma {:induction false} SettleAfter(es: seq<Event>, id: Id)
    requires var b := Run(INIT, es).book;
      id in b.settles && b.settles[id].phase == AtBank && b.settles[id].answers == []
    ensures var es' := es + [Alone(SettleDoes(id, SettleBank(true)))];
      Settles(es', id) && Run(INIT, es).history <= Run(INIT, es').history
  {
    RunOne(es, Alone(SettleDoes(id, SettleBank(true))));
  }

  /** The database transaction of a void the bank has carried out ends with event `e`. From then on some continuation
      captures the transaction, and has it settled, if and only if that end was not the commit; after the commit no
      continuation ever captures it, and none does while the void is open. */
  lemma {:induction false} VoidedAtTheBankCapturedIff(es: seq<Event>, sid: Id, e: Event)
    requires VoidedAtBank(Run(INIT, es), sid) && sid !in Step(Run(INIT, es), e).sessions
    ensures var id := Run(INIT, es).sessions[sid].id;
      && ((exists more :: Captures(es + [e] + more, id)) <==> e != Commit(sid))
      && ((exists more :: Captures(es + [e] + more, id) && Settles(es + [e] + more, id)) <==> e != Commit(sid))
  {
    var l := Run(INIT, es);
    var id := l.sessions[sid].id;
    HowVoidsEnd(l, sid, e);
    if e == Commit(sid) {
      forall more ensures !Captures(es + [e] + more, id) {
        CommittedVoidIsFinal(es, sid, more);
      }
    } else {
      OpenVoidHoldsTheRow(es, sid);
      RunOne(es, e);
      var more := CaptureCanHappen(es + [e], id);
      assert Captures(es + [e] + more, id) && Settles(es + [e] + more, id);
    }
  }
}
