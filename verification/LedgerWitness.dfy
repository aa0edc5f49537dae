/** Concrete interleavings that show which stronger claims the ledger does not keep. */
module LedgerWitness {
  import opened Base
  import opened Transactions
  import opened Book
  import opened RowStore
  import opened Ledger
  import opened LedgerTheorems

  const SALE := AuthRequest("m", "o", 100, "USD", "card", "", None)
  const OPENED := NewTransaction(SALE, Approve)
  const PENDING := OPENED.(status := CapturePending, idempotencyKey := "k")

  /** One row in state `tx`, no open database transaction, no lock. */
  predicate Calm(l: Ledger, tx: Transaction) {
    l.book.txs == map["t" := tx] && l.sessions == map[] && l.locks.holder == map[] && l.locks.staged == map[]
  }

  lemma {:induction false} AuthorizedSale() returns (es: seq<Event>)
    ensures Calm(Run(INIT, es), OPENED) && Run(INIT, es).book == EMPTY.(txs := map["t" := OPENED])
  {
    es := [Alone(Authorize("t", SALE, Approve))];
    RunOne([], es[0]);
    assert [] + [es[0]] == es;
  }

  lemma {:induction false} CaptureFrom(es: seq<Event>) returns (es': seq<Event>)
    requires Calm(Run(INIT, es), OPENED)
    ensures es <= es' && Calm(Run(INIT, es'), PENDING)
    ensures Run(INIT, es').book == DoCapture(Run(INIT, es).book, "t", "k", 100).book
  {
    var e1, e2, e3 := Begin("s", "t", CaptureCall("k", 100)), UpdateRow("s"), Commit("s");
    es' := es + [e1] + [e2] + [e3];
    RunOne(es, e1);
    RunOne(es + [e1], e2);
    RunOne(es + [e1] + [e2], e3);
    var l := Run(INIT, es);
    var l1 := Open(l, "s", Reader(l, "t", CaptureCall("k", 100)));
    assert Run(INIT, es + [e1]) == l1;
    WriteGoesThrough(l1, "s");
    CommitGoesThrough(WriteRow(l1, "s"), "s", "");
  }

  lemma {:induction false} AloneStep(es: seq<Event>, op: Op) returns (es': seq<Event>)
    requires IsGoroutine(op) && Run(INIT, es).locks.holder == map[] && Do(Run(INIT, es).book, op).reply != NotEnabled
    ensures es' == es + [Alone(op)] && Run(INIT, es').book == Do(Run(INIT, es).book, op).book
    ensures var l, l' := Run(INIT, es), Run(INIT, es');
      l'.sessions == l.sessions && l'.locks.holder == l.locks.holder && l'.locks.staged == l.locks.staged
  {
    es' := es + [Alone(op)];
    RunOne(es, Alone(op));
  }

  predicate IsGoroutine(op: Op) {
    op.SettleDoes? || op.RefundDoes?
  }

  lemma {:induction false} SettledSale() returns (es: seq<Event>)
    ensures Calm(Run(INIT, es), PENDING.(status := Captured)) && Run(INIT, es).book.refunds == map[]
  {
    es := AuthorizedSale();
    es := CaptureFrom(es);
    es := AloneStep(es, SettleDoes("t", SettleBank(true)));
    es := AloneStep(es, SettleDoes("t", SettleWrite));
  }

  lemma {:induction false} RefundAll(es: seq<Event>) returns (es': seq<Event>)
    requires Calm(Run(INIT, es), PENDING.(status := Captured)) && Run(INIT, es).book.refunds == map[]
    ensures Calm(Run(INIT, es'), PENDING.(status := Refunded, refundedAmount := 100))
    ensures Run(INIT, es').book == DoRefund(Run(INIT, es).book, "t", "r", 100, "rk").book
    ensures DoRefund(Run(INIT, es).book, "t", "r", 100, "rk").reply == Accepted
  {
    var written := RefundWritten(es);
    es' := RefundCommitted(written);
    RefundGoesThrough(Run(INIT, es));
  }

  lemma {:induction false} RefundWritten(es: seq<Event>) returns (es': seq<Event>)
    ensures Run(INIT, es') == DoUpdateRow(DoBegin(Run(INIT, es), "s", "t", RefundCall(100, "rk")), "s")
  {
    var e1, e2 := Begin("s", "t", RefundCall(100, "rk")), UpdateRow("s");
    RunOne(es, e1);
    RunOne(es + [e1], e2);
    es' := es + [e1] + [e2];
  }

  lemma {:induction false} RefundCommitted(es: seq<Event>) returns (es': seq<Event>)
    ensures Run(INIT, es') == DoCommit(DoInsertRefund(Run(INIT, es), "s", "r"), "s")
  {
    RunOne(es, InsertRefund("s", "r"));
    RunOne(es + [InsertRefund("s", "r")], Commit("s"));
    es' := es + [InsertRefund("s", "r")] + [Commit("s")];
  }

  lemma RefundGoesThrough(l: Ledger)
    requires Calm(l, PENDING.(status := Captured)) && l.book.refunds == map[]
    ensures DoRefund(l.book, "t", "r", 100, "rk").reply == Accepted
    ensures var l' :=
      DoCommit(DoInsertRefund(DoUpdateRow(DoBegin(l, "s", "t", RefundCall(100, "rk")), "s"), "s", "r"), "s");
      && l'.book == DoRefund(l.book, "t", "r", 100, "rk").book
      && Calm(l', PENDING.(status := Refunded, refundedAmount := 100))
  {
    var l1 := Open(l, "s", Reader(l, "t", RefundCall(100, "rk")));
    WriteGoesThrough(l1, "s");
    SoloInsert(l, WriteRow(l1, "s"), "s", "t", "r", 100, "rk");
    assert DoBegin(l, "s", "t", RefundCall(100, "rk")) == l1;
    SoloInsertLocks(WriteRow(l1, "s"));
  }

  lemma SoloInsertLocks(l: Ledger)
    requires "s" in l.sessions && l.sessions["s"].id == "t" && l.locks.holder.Keys == {"t"}
    requires l.locks.staged.Keys == {"t"}
    requires l.sessions["s"].call.RefundCall? && l.sessions["s"].stage.Written?
    requires !RidInFlight(l, "r") && !RefundTaken(l.book.refunds, "r", NewRefund(l.sessions["s"]))
    ensures var l' := DoCommit(DoInsertRefund(l, "s", "r"), "s"); l'.locks.holder == map[] && l'.locks.staged == map[]
  {}

  /** The declared life cycle is not kept: a full refund the bank refuses takes a row from refunded back to captured. */
  lemma {:induction false} ReleaseLeavesTheTable() returns (es: seq<Event>)
    ensures var l, l' := Run(INIT, es), Run(INIT, es + [Alone(RefundDoes("r", Release))]);
      && l.book.txs == map["t" := PENDING.(status := Refunded, refundedAmount := 100)]
      && l'.book.txs == map["t" := PENDING.(status := Captured)]
      && !CanTransitionTo(Refunded, Captured)
  {
    es := RefusedRefund();
    var es' := AloneStep(es, RefundDoes("r", Release));
  }

  lemma {:induction false} RefusedRefund() returns (es: seq<Event>)
    ensures Calm(Run(INIT, es), PENDING.(status := Refunded, refundedAmount := 100))
    ensures var b := Run(INIT, es).book;
      JobPhase(b, "r") == Releasing(0) && b.refunds["r"].transactionId == "t" && b.refunds["r"].amount == 100
  {
    es := SettledSale();
    es := RefundAll(es);
    es := AloneStep(es, RefundDoes("r", RefundBank(false)));
    es := AloneStep(es, RefundDoes("r", RefundWrite));
  }

  lemma {:induction false} VoidedAtTheBank() returns (es: seq<Event>)
    ensures "v" in Run(INIT, es).sessions && Run(INIT, es).sessions["v"].stage == Approved
    ensures Calm(Run(INIT, es + [Abort("v")]), OPENED) && Run(INIT, es + [Abort("v")]).book.settles == map[]
  {
    es := AuthorizedSale();
    var b, l := Begin("v", "t", VoidCall), Run(INIT, es);
    RunOne(es, b);
    RunOne(es + [b], AskVoid("v", true));
    es := es + [b] + [AskVoid("v", true)];
    RunOne(es, Abort("v"));
    assert Run(INIT, es) == Advance(Open(l, "v", Reader(l, "t", VoidCall)), "v", Approved);
  }

  /** Exclusion is about committed rows only: when the database transaction of a void fails after the bank
      has voided, the row is still authorized, and a later capture is settled by the same bank. */
  lemma {:induction false} VoidedAtTheBankYetSettled() returns (es: seq<Event>, i: nat)
    ensures i <= |es| && "v" in Run(INIT, es[..i]).sessions && Run(INIT, es[..i]).sessions["v"].stage == Approved
    ensures "t" in Run(INIT, es).book.settles && Run(INIT, es).book.settles["t"].answers == [true]
  {
    var es1 := VoidedAtTheBank();
    i := |es1|;
    es := CaptureFrom(es1 + [Abort("v")]);
    assert es1 <= es1 + [Abort("v")] <= es;
    assert es[..i] == es1;
    var settled := AloneStep(es, SettleDoes("t", SettleBank(true)));
    assert settled[..i] == es1;
    es := settled;
  }
}
