/** What holds in every run of the provider's ledger, for any interleaving of any calls. */
module LedgerTheorems {
  import opened Base
  import opened Transactions
  import opened Book
  import opened RowStore
  import opened Ledger
  import opened BookProofs
  import opened LedgerProofs

  // Refinement of the sequential ledger.

  lemma {:induction false} HonestExtend(h: seq<Entry>, en: Entry)
    requires Honest(h) && Do(After(h), en.op).reply == en.reply
    ensures Honest(h + [en]) && After(h + [en]) == Do(After(h), en.op).book
  {
    var h' := h + [en];
    assert h'[..|h|] == h;
    forall i | 0 <= i < |h'| ensures Do(After(h'[..i]), h'[i].op).reply == h'[i].reply {
      assert h'[..i] == h[..i];
    }
  }

  lemma StartsSound()
    ensures Inv(EMPTY) && Coherent(INIT)
  {}

  /** Whatever the interleaving, the committed ledger and every reply on record are those of the
      recorded operations done one after the other; and the sequential invariant holds. */
  lemma {:induction false} Linearizable(es: seq<Event>)
    ensures var l := Run(INIT, es);
      Honest(l.history) && After(l.history) == l.book && Inv(l.book) && Coherent(l)
  {
    if es == [] {
      StartsSound();
    } else {
      var l := Run(INIT, es[..|es| - 1]);
      Linearizable(es[..|es| - 1]);
      StepCoherent(l, es[|es| - 1]);
      StepExplained(l, es[|es| - 1]);
      var l' := Step(l, es[|es| - 1]);
      if l'.history != l.history {
        var en := l'.history[|l.history|];
        assert l'.history == l.history + [en];
        HonestExtend(l.history, en);
        StepKeepsInv(l.book, en.op);
      }
    }
  }

  lemma {:induction false} RunAppend(l: Ledger, es: seq<Event>, more: seq<Event>)
    ensures Run(l, es + more) == Run(Run(l, es), more)
  {
    if more == [] {
      assert es + more == es;
    } else {
      var last := more[|more| - 1];
      assert (es + more)[..|es + more| - 1] == es + more[..|more| - 1];
      RunAppend(l, es, more[..|more| - 1]);
    }
  }

  lemma {:induction false} RunOne(es: seq<Event>, e: Event)
    ensures Run(INIT, es + [e]) == Step(Run(INIT, es), e)
  {
    assert (es + [e])[..|es|] == es;
  }

  lemma {:induction false} RunThree(es: seq<Event>, a: Event, b: Event, c: Event)
    ensures Run(INIT, es + ([a] + [b] + [c])) == Step(Step(Step(Run(INIT, es), a), b), c)
  {
    assert es + ([a] + [b] + [c]) == es + [a] + [b] + [c];
    RunOne(es, a);
    RunOne(es + [a], b);
    RunOne(es + [a] + [b], c);
  }

  lemma {:induction false} RunFour(es: seq<Event>, a: Event, b: Event, c: Event, d: Event)
    ensures Run(INIT, es + ([a] + [b] + [c] + [d])) == Step(Step(Step(Step(Run(INIT, es), a), b), c), d)
  {
    RunThree(es, a, b, c);
    RunOne(es + ([a] + [b] + [c]), d);
    assert es + ([a] + [b] + [c] + [d]) == es + ([a] + [b] + [c]) + [d];
  }

  /** Operations take effect in the order of the events that complete them: later events only append. */
  lemma {:induction false} HistoryOnlyGrows(es: seq<Event>, more: seq<Event>)
    ensures Run(INIT, es).history <= Run(INIT, es + more).history
  {
    if more == [] {
      assert es + more == es;
    } else {
      var most := es + more[..|more| - 1];
      assert (es + more)[..|es + more| - 1] == most;
      HistoryOnlyGrows(es, more[..|more| - 1]);
      Linearizable(most);
      StepRecords(Run(INIT, most), more[|more| - 1]);
    }
  }

  lemma {:induction false} StepRecords(l: Ledger, e: Event)
    requires Coherent(l) && UniqueKeys(l.book.txs)
    ensures l.history <= Step(l, e).history
  {
    StepExplained(l, e);
  }

  lemma {:induction false} RunsCoherent(es: seq<Event>)
    ensures Coherent(Run(INIT, es))
  {
    Linearizable(es);
  }

  lemma {:induction false} RunsSound(es: seq<Event>)
    ensures Inv(Run(INIT, es).book)
  {
    Linearizable(es);
  }

  /** First updater wins: the call commits over the very version it read, moves its row one version on,
      and leaves every other row alone. */
  predicate OverwritesWhatItRead(l: Ledger, s: Session, l': Ledger) {
    && s.id in l.book.txs && l.book.txs[s.id] == s.seen && s.seenVersion == Version(l.locks, s.id)
    && l'.book.txs == l.book.txs[s.id := Planned(s.call, s.seen)]
    && l'.locks.version == l.locks.version[s.id := s.seenVersion + 1]
  }

  lemma {:induction false} CommitOverwritesWhatItRead(es: seq<Event>, sid: Id)
    requires CanCommit(Run(INIT, es), sid)
    ensures var l := Run(INIT, es); OverwritesWhatItRead(l, l.sessions[sid], Step(l, Commit(sid)))
  {
    RunsCoherent(es);
    CommitOverwrites(Run(INIT, es), sid);
  }

  lemma CommitOverwrites(l: Ledger, sid: Id)
    requires CanCommit(l, sid) && Sees(l, l.sessions[sid]) && Owns(l, sid, l.sessions[sid])
    ensures OverwritesWhatItRead(l, l.sessions[sid], DoCommit(l, sid))
  {
    InstallWritesOneRow(l.book, l.sessions[sid], l.locks.staged[l.sessions[sid].id]);
  }

  lemma InstallWritesOneRow(b: Book, s: Session, row: Transaction)
    requires ReadyToCommit(s)
    ensures Install(b, s, row).txs == b.txs[s.id := row]
  {}

  // The machine is not idle: undisturbed, each call does exactly what its atomic form does.

  /** Nobody holds the row; other calls may be under way on other rows. */
  predicate Undisturbed(l: Ledger, sid: Id, id: Id) {
    sid !in l.sessions && id !in l.locks.holder
  }

  /** No uncommitted row carries this capture key. */
  predicate CaptureKeyIdle(l: Ledger, id: Id, key: string) {
    id in l.book.txs ==>
      !KeyInFlight(l.locks.staged, id, l.book.txs[id].(status := CapturePending, idempotencyKey := key))
  }

  /** The call got the answer and left the ledger that its atomic form gives and leaves, and it is over. */
  predicate Performed(l: Ledger, l': Ledger, op: Op) {
    && l'.book == Do(l.book, op).book && l'.sessions == l.sessions && l'.locks.holder == l.locks.holder
    && |l'.history| == |l.history| + 1 && l'.history[..|l.history|] == l.history
    && l'.history[|l.history|].reply == Do(l.book, op).reply
    && (Do(l.book, op).reply == Accepted ==> l'.history[|l.history|].op == op)
  }

  lemma WriteGoesThrough(l: Ledger, sid: Id)
    requires sid in l.sessions && ReadyToUpdate(l.sessions[sid])
    requires var s := l.sessions[sid];
      Free(l.locks, sid, s.id) && Version(l.locks, s.id) == s.seenVersion
      && !KeyTaken(l.book.txs, s.id, Planned(s.call, s.seen))
      && !KeyInFlight(l.locks.staged, s.id, Planned(s.call, s.seen))
    ensures DoUpdateRow(l, sid) == WriteRow(l, sid)
  {}

  lemma CommitGoesThrough(l: Ledger, sid: Id, rid: Id)
    requires CanCommit(l, sid)
    requires var s := l.sessions[sid];
      && s.id in l.book.txs && l.book.txs[s.id] == s.seen && Validate(s.call, s.seen).Accepted?
      && l.locks.staged[s.id] == Planned(s.call, s.seen)
      && (s.call.CaptureCall? ==> !KeyTaken(l.book.txs, s.id, Planned(s.call, s.seen)))
      && (s.call.RefundCall? ==>
            s.call.amount >= 1 && s.stage.rid == rid && !RefundTaken(l.book.refunds, rid, NewRefund(s)))
    ensures var s := l.sessions[sid]; var l' := DoCommit(l, sid);
      && Do(l.book, OpOf(s.id, s.call, rid, true)) == Outcome(Accepted, l'.book)
      && l'.sessions == l.sessions - {sid} && l'.locks.holder == l.locks.holder - {s.id}
      && l'.history == l.history + [Entry(OpOf(s.id, s.call, rid, true), Accepted)]
  {
    InstallIsAtomic(l.book, l.sessions[sid], rid);
  }

  function Reader(l: Ledger, id: Id, call: Call): Session
    requires id in l.book.txs
  {
    Session(id, call, l.book.txs[id], Version(l.locks, id), Reading)
  }

  /** A session that may write its row does, and commits. */
  lemma {:induction false} WritesAndCommits(l: Ledger, l1: Ledger, sid: Id, s: Session)
    requires sid !in l.sessions && s.id !in l.locks.holder && !s.call.RefundCall? && ReadyToUpdate(s)
    requires l1.book == l.book && l1.history == l.history && l1.sessions == l.sessions[sid := s]
    requires l1.locks.holder - {s.id} == l.locks.holder
    requires s.id in l.book.txs && l.book.txs[s.id] == s.seen && Validate(s.call, s.seen).Accepted?
    requires !KeyTaken(l.book.txs, s.id, Planned(s.call, s.seen))
    ensures Performed(l, DoCommit(WriteRow(l1, sid), sid), OpOf(s.id, s.call, "", true))
  {
    var l2 := WriteRow(l1, sid);
    assert l2.sessions == l.sessions[sid := s.(stage := Written)] && l2.sessions - {sid} == l.sessions;
    assert l2.locks.holder == l1.locks.holder[s.id := sid] && l2.locks.holder - {s.id} == l.locks.holder;
    CommitGoesThrough(l2, sid, "");
  }

  /** A row that keeps its key clashes with no uncommitted row: those clash with no committed one. */
  lemma {:induction false} KeptKeyIsIdle(l: Ledger, id: Id, s: Session)
    requires Coherent(l) && id in l.book.txs && s.seen == l.book.txs[id] && !s.call.CaptureCall?
    ensures !KeyInFlight(l.locks.staged, id, Planned(s.call, s.seen))
  {
    forall other | other in l.locks.staged && other != id ensures !KeyClash(l.locks.staged[other], s.seen) {
      assert !KeyTaken(l.book.txs, other, l.locks.staged[other]);
      assert !KeyClash(l.book.txs[id], l.locks.staged[other]);
    }
  }

  lemma SoloCapture(l: Ledger, sid: Id, id: Id, key: string, amount: int)
    requires Undisturbed(l, sid, id) && CaptureKeyIdle(l, id, key)
    ensures Performed(l,
      DoCommit(DoUpdateRow(DoBegin(l, sid, id, CaptureCall(key, amount)), sid), sid),
      Capture(id, key, amount))
  {
    if DoCapture(l.book, id, key, amount).reply.Accepted? {
      SoloCaptureAccepted(l, sid, id, key, amount);
    } else {
      SoloCaptureRefused(l, sid, id, key, amount);
    }
  }

  lemma {:induction false} SoloCaptureAccepted(l: Ledger, sid: Id, id: Id, key: string, amount: int)
    requires Undisturbed(l, sid, id) && CaptureKeyIdle(l, id, key)
    requires DoCapture(l.book, id, key, amount).reply.Accepted?
    ensures Performed(l,
      DoCommit(DoUpdateRow(DoBegin(l, sid, id, CaptureCall(key, amount)), sid), sid),
      Capture(id, key, amount))
  {
    var l1 := Open(l, sid, Reader(l, id, CaptureCall(key, amount)));
    assert DoBegin(l, sid, id, CaptureCall(key, amount)) == l1;
    WriteGoesThrough(l1, sid);
    WritesAndCommits(l, l1, sid, l1.sessions[sid]);
  }

  lemma {:induction false} SoloCaptureRefused(l: Ledger, sid: Id, id: Id, key: string, amount: int)
    requires Undisturbed(l, sid, id) && CaptureKeyIdle(l, id, key)
    requires !DoCapture(l.book, id, key, amount).reply.Accepted?
    ensures Performed(l,
      DoCommit(DoUpdateRow(DoBegin(l, sid, id, CaptureCall(key, amount)), sid), sid),
      Capture(id, key, amount))
  {}

  lemma SoloVoid(l: Ledger, sid: Id, id: Id, ok: bool)
    requires Undisturbed(l, sid, id) && Coherent(l) && UniqueKeys(l.book.txs)
    ensures Performed(l,
      DoCommit(DoUpdateRow(DoAskVoid(DoBegin(l, sid, id, VoidCall), sid, ok), sid), sid), Void(id, ok))
  {
    if DoVoid(l.book, id, ok).reply.Accepted? {
      SoloVoidAccepted(l, sid, id);
    } else {
      SoloVoidRefused(l, sid, id, ok);
    }
  }

  lemma {:induction false} SoloVoidAccepted(l: Ledger, sid: Id, id: Id)
    requires Undisturbed(l, sid, id) && Coherent(l) && UniqueKeys(l.book.txs)
    requires DoVoid(l.book, id, true).reply.Accepted?
    ensures Performed(l,
      DoCommit(DoUpdateRow(DoAskVoid(DoBegin(l, sid, id, VoidCall), sid, true), sid), sid), Void(id, true))
  {
    var l1 := DoAskVoid(DoBegin(l, sid, id, VoidCall), sid, true);
    var s := Reader(l, id, VoidCall).(stage := Approved);
    VoidApproved(l, sid, id);
    OnlyCapturesClash(l, s);
    KeptKeyIsIdle(l, id, s);
    WriteGoesThrough(l1, sid);
    WritesAndCommits(l, l1, sid, s);
  }

  lemma {:induction false} VoidApproved(l: Ledger, sid: Id, id: Id)
    requires Undisturbed(l, sid, id) && id in l.book.txs && l.book.txs[id].status == Authorized
    ensures var l1 := DoAskVoid(DoBegin(l, sid, id, VoidCall), sid, true);
      && l1.book == l.book && l1.history == l.history
      && l1.sessions == l.sessions[sid := Reader(l, id, VoidCall).(stage := Approved)]
      && l1.locks == Hold(l.locks, sid, id) && l1.locks.holder - {id} == l.locks.holder
  {}

  lemma {:induction false} SoloVoidRefused(l: Ledger, sid: Id, id: Id, ok: bool)
    requires Undisturbed(l, sid, id) && !DoVoid(l.book, id, ok).reply.Accepted?
    ensures Performed(l,
      DoCommit(DoUpdateRow(DoAskVoid(DoBegin(l, sid, id, VoidCall), sid, ok), sid), sid), Void(id, ok))
  {}

  lemma SoloRefund(l: Ledger, sid: Id, id: Id, rid: Id, amount: int, key: string)
    requires Undisturbed(l, sid, id) && Coherent(l) && UniqueKeys(l.book.txs) && !RidInFlight(l, rid)
    ensures Performed(l,
      DoCommit(DoInsertRefund(DoUpdateRow(DoBegin(l, sid, id, RefundCall(amount, key)), sid), sid, rid), sid),
      RefundOp(id, rid, amount, key))
  {
    var reply := DoRefund(l.book, id, rid, amount, key).reply;
    if reply == Accepted || reply == DuplicateIdempotency {
      var l1 := Open(l, sid, Reader(l, id, RefundCall(amount, key)));
      OnlyCapturesClash(l, Reader(l, id, RefundCall(amount, key)));
      KeptKeyIsIdle(l, id, Reader(l, id, RefundCall(amount, key)));
      WriteGoesThrough(l1, sid);
      SoloInsert(l, WriteRow(l1, sid), sid, id, rid, amount, key);
    }
  }

  lemma SoloInsert(l: Ledger, l2: Ledger, sid: Id, id: Id, rid: Id, amount: int, key: string)
    requires Undisturbed(l, sid, id) && id in l.book.txs && amount >= 1 && !RidInFlight(l, rid)
    requires RefundVerdict(l.book.txs[id], amount).Accepted?
    requires l2 == WriteRow(Open(l, sid, Reader(l, id, RefundCall(amount, key))), sid)
    ensures Performed(l, DoCommit(DoInsertRefund(l2, sid, rid), sid), RefundOp(id, rid, amount, key))
  {
    assert !RidInFlight(l2, rid);
    if RefundTaken(l.book.refunds, rid, NewRefund(l2.sessions[sid])) {
      SoloDuplicate(l, l2, sid, rid);
    } else {
      SoloNewRefund(l, l2, sid, id, rid, amount, key);
    }
  }

  lemma {:induction false} SoloNewRefund(l: Ledger, l2: Ledger, sid: Id, id: Id, rid: Id, amount: int, key: string)
    requires Undisturbed(l, sid, id) && id in l.book.txs && amount >= 1
    requires RefundVerdict(l.book.txs[id], amount).Accepted?
    requires l2 == WriteRow(Open(l, sid, Reader(l, id, RefundCall(amount, key))), sid) && !RidInFlight(l2, rid)
    requires !RefundTaken(l.book.refunds, rid, NewRefund(l2.sessions[sid]))
    ensures Performed(l, DoCommit(DoInsertRefund(l2, sid, rid), sid), RefundOp(id, rid, amount, key))
  {
    assert DoInsertRefund(l2, sid, rid) == Advance(l2, sid, Inserted(rid));
    CommitGoesThrough(Advance(l2, sid, Inserted(rid)), sid, rid);
    assert l2.sessions[sid := l2.sessions[sid].(stage := Inserted(rid))] - {sid} == l.sessions;
  }

  lemma SoloDuplicate(l: Ledger, l2: Ledger, sid: Id, rid: Id)
    requires sid !in l.sessions && sid in l2.sessions && l2.book == l.book && l2.history == l.history
    requires !RidInFlight(l2, rid)
    requires var s := l2.sessions[sid];
      && s.call.RefundCall? && s.call.amount >= 1 && s.stage.Written? && l2.sessions == l.sessions[sid := s]
      && s.id in l.book.txs && l.book.txs[s.id] == s.seen && Validate(s.call, s.seen).Accepted?
      && RefundTaken(l.book.refunds, rid, NewRefund(s))
      && s.id !in l.locks.holder && l2.locks.holder == l.locks.holder[s.id := sid]
    ensures var s := l2.sessions[sid];
      Performed(l, DoCommit(DoInsertRefund(l2, sid, rid), sid), RefundOp(s.id, rid, s.call.amount, s.call.key))
  {
    DuplicateRefundIsAtomic(l.book, l2.sessions[sid], rid);
    assert l2.sessions - {sid} == l.sessions;
    assert l.locks.holder[l2.sessions[sid].id := sid] - {l2.sessions[sid].id} == l.locks.holder;
  }
}
