/** Guarantees of purchases in every interleaving. */
module ShopTheorems {
  import opened Base
  import opened Transactions
  import opened Catalog
  import opened Shop
  import opened ShopProofs
  import Book
  import BookProofs
  import Ledger
  import LedgerMoney

  // One transaction for each key.

  lemma KeysAfterInsert(txs: map<Id, Transaction>, txid: Id, row: Transaction)
    requires PurchaseKeysUnique(txs) && NewRow(txs, txid, row)
    ensures PurchaseKeysUnique(txs[txid := row])
  {
    forall id | id in txs ensures !SamePurchaseKey(txs[id], row) && !SamePurchaseKey(row, txs[id]) {}
  }

  lemma KeysEvolve(s: Shop, s': Shop)
    requires PurchaseKeysUnique(s.txs) && Outside(s, s')
    ensures PurchaseKeysUnique(s'.txs)
  {
    forall a, b | a in s'.txs && b in s'.txs && SamePurchaseKey(s'.txs[a], s'.txs[b]) ensures a == b {
      assert a in s.txs && b in s.txs && Life(s.txs[a], s'.txs[a]) && Life(s.txs[b], s'.txs[b]);
      assert SamePurchaseKey(s.txs[a], s.txs[b]);
    }
  }

  lemma StepKeys(s: Shop, e: Event)
    requires PurchaseKeysUnique(s.txs) && Calls(s)
    ensures PurchaseKeysUnique(Step(s, e).txs)
  {
    if e.Commit? {
      if e.cid in s.calls && ReadyToCommit(s.calls[e.cid].stage) {
        assert CallOk(s, e.cid, s.calls[e.cid]);
        KeysAfterInsert(s.txs, s.calls[e.cid].stage.txid, s.calls[e.cid].stage.row);
      }
    } else if IsCall(e) {
      CallTables(s, e);
    } else {
      OtherIsOutside(s, e);
      KeysEvolve(s, Step(s, e));
    }
  }

  /** For each merchant and purchase key at most one transaction is ever stored. */
  lemma {:induction false} OneTransactionPerKey(es: seq<Event>)
    ensures PurchaseKeysUnique(Run(INIT, es).txs)
  {
    if es != [] {
      OneTransactionPerKey(es[..|es| - 1]);
      RunsSound(es[..|es| - 1]);
      StepKeys(Run(INIT, es[..|es| - 1]), es[|es| - 1]);
    }
  }

  // Every answer tells the truth about that transaction.

  /** The transaction is stored under this key of this merchant. */
  predicate StoredUnder(txs: map<Id, Transaction>, id: Id, merchant: string, key: string) {
    id in txs && key != "" && txs[id].merchantId == merchant && txs[id].purchaseKey == key
  }

  predicate Tells(txs: map<Id, Transaction>, req: Request, r: Response) {
    && StoredUnder(txs, r.transactionId, req.merchantId, req.key)
    && var tx := txs[r.transactionId];
      && tx.orderRef == req.orderId && tx.cardToken == req.cardToken && tx.productId == Some(req.productId)
      && r.orderId == req.orderId && r.productId == req.productId
      && r.amount == tx.amount && r.currency == tx.currency && r.declineReason == tx.declineReason
      && (r.status == Declined <==> tx.status == Declined)
  }

  /** A transaction is stored under the key that was not made for this request. */
  predicate Conflicts(txs: map<Id, Transaction>, req: Request) {
    exists id :: id in txs && StoredUnder(txs, id, req.merchantId, req.key)
              && !(txs[id].orderRef == req.orderId && txs[id].cardToken == req.cardToken
                   && txs[id].productId == Some(req.productId))
  }

  predicate AnswerOk(txs: map<Id, Transaction>, a: Answer) {
    match a.reply
    case Success(r) => Tells(txs, a.req, r) && r.status != Authorized
    case PartiallyApplied(r) => Tells(txs, a.req, r) && r.status == Authorized
    case KeyConflict => Conflicts(txs, a.req)
    case RaceUnresolved => false
    case _ => true
  }

  predicate AnswersOk(txs: map<Id, Transaction>, answers: seq<Answer>) {
    forall a :: a in answers ==> AnswerOk(txs, a)
  }

  lemma AnswersStay(txs: map<Id, Transaction>, txs': map<Id, Transaction>, answers: seq<Answer>)
    requires AnswersOk(txs, answers) && TxsEvolve(txs, txs')
    ensures AnswersOk(txs', answers)
  {
    forall a | a in answers ensures AnswerOk(txs', a) {
      assert AnswerOk(txs, a);
    }
  }

  /** The event answered nobody, or gave one truthful answer. */
  predicate OneAnswer(s: Shop, s': Shop) {
    s'.answers == s.answers
    || (|s'.answers| == |s.answers| + 1 && s'.answers[..|s.answers|] == s.answers
        && AnswerOk(s'.txs, s'.answers[|s.answers|]))
  }

  lemma BeginAnswers(s: Shop, cid: Id, req: Request, found: Id)
    ensures OneAnswer(s, DoBegin(s, cid, req, found))
  {}

  lemma LoadAnswers(s: Shop, cid: Id, verdict: Option<Verdict>)
    ensures OneAnswer(s, DoLoad(s, cid)) && OneAnswer(s, DoAskBank(s, cid, verdict))
  {}

  lemma MarkAnswers(s: Shop, cid: Id, now: int)
    ensures OneAnswer(s, DoMark(s, cid, now))
  {}

  lemma CommitAnswers(s: Shop, cid: Id)
    requires Calls(s)
    ensures OneAnswer(s, DoCommit(s, cid))
  {
    if cid in s.calls { assert CallOk(s, cid, s.calls[cid]); }
  }

  lemma CaptureAnswers(s: Shop, cid: Id, ok: bool)
    requires Calls(s)
    ensures OneAnswer(s, DoStartCapture(s, cid, ok))
  {
    if cid in s.calls { assert CallOk(s, cid, s.calls[cid]); }
  }

  lemma ResolveAnswers(s: Shop, cid: Id, found: Id)
    requires Calls(s)
    ensures OneAnswer(s, DoResolve(s, cid, found))
  {
    if cid in s.calls { assert CallOk(s, cid, s.calls[cid]); }
  }

  lemma DropAnswers(s: Shop, cid: Id)
    ensures OneAnswer(s, DoDrop(s, cid))
  {}

  lemma OthersDoNotAnswer(s: Shop, e: Event)
    requires !IsCall(e)
    ensures Step(s, e).answers == s.answers
  {
    match e
    case WriteEdit(eid) =>
    case ReadEdit(eid, merchant, id, req) => ReadsLeaveTables(s, eid, merchant, id, req);
    case ExplainEdit(eid) =>
    case SetArchived(_, _, _) =>
    case MarkAlone(_, _, _) =>
    case CreateProduct(_, _) =>
    case MoveOn(_, _) =>
    case AuthorizeOnly(_, _) =>
  }

  lemma {:induction false} StepAnswers(s: Shop, e: Event)
    requires Calls(s)
    ensures OneAnswer(s, Step(s, e))
  {
    match e
    case Begin(cid, req, found) => BeginAnswers(s, cid, req, found);
    case Insert(cid, txid) => InsertTables(s, cid, txid);
    case Mark(cid, now) => MarkAnswers(s, cid, now);
    case Commit(cid) => CommitAnswers(s, cid);
    case Load(cid) => LoadAnswers(s, cid, None);
    case AskBank(cid, verdict) => LoadAnswers(s, cid, verdict);
    case StartCapture(cid, ok) => CaptureAnswers(s, cid, ok);
    case Resolve(cid, found) => ResolveAnswers(s, cid, found);
    case Drop(cid) => DropAnswers(s, cid);
    case _ => OthersDoNotAnswer(s, e);
  }

  lemma AnswersExtend(s: Shop, s': Shop)
    requires AnswersOk(s.txs, s.answers) && TxsEvolve(s.txs, s'.txs) && OneAnswer(s, s')
    ensures AnswersOk(s'.txs, s'.answers)
  {
    AnswersStay(s.txs, s'.txs, s.answers);
    forall a | a in s'.answers ensures AnswerOk(s'.txs, a) {
      if a !in s.answers { assert a == s'.answers[|s.answers|]; }
    }
  }

  /** Every answer that is not an error carries the id, order, product, amount and currency of the one transaction
      stored under its key, says declined exactly if that was declined, says authorized exactly if only the capture call
      failed, and answers the request the transaction was made for; no race ends unresolved. */
  lemma {:induction false} AnswersAreTruthful(es: seq<Event>)
    ensures AnswersOk(Run(INIT, es).txs, Run(INIT, es).answers)
  {
    if es != [] {
      var s := Run(INIT, es[..|es| - 1]);
      AnswersAreTruthful(es[..|es| - 1]);
      RunsSound(es[..|es| - 1]);
      StepEvolves(s, es[|es| - 1]);
      StepAnswers(s, es[|es| - 1]);
      AnswersExtend(s, Step(s, es[|es| - 1]));
    }
  }

  predicate Delivered(reply: Reply) {
    reply.Success? || reply.PartiallyApplied?
  }

  /** The same key never gets two purchases: all answers under it that are not errors agree, and their requests do
      too. */
  lemma {:induction false} OneOutcomePerKey(es: seq<Event>, i: nat, j: nat)
    requires var as_ := Run(INIT, es).answers;
      i < |as_| && j < |as_| && Delivered(as_[i].reply) && Delivered(as_[j].reply)
      && as_[i].req.merchantId == as_[j].req.merchantId && as_[i].req.key == as_[j].req.key
    ensures var a, b := Run(INIT, es).answers[i], Run(INIT, es).answers[j];
      a.req == b.req && a.reply.response.(status := b.reply.response.status) == b.reply.response
  {
    var s := Run(INIT, es);
    AnswersAreTruthful(es);
    OneTransactionPerKey(es);
    var a, b := s.answers[i], s.answers[j];
    assert AnswerOk(s.txs, a) && AnswerOk(s.txs, b);
    assert SamePurchaseKey(s.txs[a.reply.response.transactionId], s.txs[b.reply.response.transactionId]);
  }

  /** The re-read after a lost race finds `winner`, and nobody else, and the call is answered from that row. */
  ghost predicate ResolvedBy(s: Shop, cid: Id, winner: Id)
    requires cid in s.calls
  {
    var req := s.calls[cid].req;
    && Finds(s.txs, req.merchantId, req.key, winner)
    && (forall id :: Finds(s.txs, req.merchantId, req.key, id) ==> id == winner)
    && DoResolve(s, cid, winner).answers == s.answers + [Answer(req, Replay(winner, s.txs[winner], req))]
  }

  /** Whenever an insert has lost to the unique index, the winner is there to be found. */
  lemma {:induction false} RacesAreResolved(es: seq<Event>, cid: Id)
    requires cid in Run(INIT, es).calls && Run(INIT, es).calls[cid].stage.Racing?
    ensures exists winner :: ResolvedBy(Run(INIT, es), cid, winner)
  {
    RunsSound(es);
    OneTransactionPerKey(es);
    RaceIsResolved(Run(INIT, es), cid);
  }

  lemma RaceIsResolved(s: Shop, cid: Id)
    requires PurchaseKeysUnique(s.txs) && Calls(s) && cid in s.calls && s.calls[cid].stage.Racing?
    ensures exists winner :: ResolvedBy(s, cid, winner)
  {
    assert CallOk(s, cid, s.calls[cid]);
    var req := s.calls[cid].req;
    var winner :| winner in s.txs && HasPurchaseKey(s.txs[winner], req.merchantId, req.key);
    forall id | Finds(s.txs, req.merchantId, req.key, id) ensures id == winner {
      assert SamePurchaseKey(s.txs[id], s.txs[winner]);
    }
    assert ResolvedBy(s, cid, winner);
  }

  // Captures.

  predicate CapturedOnce(s: Shop) {
    && (forall i, j :: 0 <= i < j < |s.captures| ==> s.captures[i] != s.captures[j])
    && (forall id :: id in s.captures ==> id in s.txs && s.txs[id].purchaseKey != "" && s.txs[id].status != Declined)
  }

  lemma CaptureOnce(s: Shop, cid: Id, ok: bool)
    requires CapturedOnce(s) && Calls(s)
    ensures CapturedOnce(DoStartCapture(s, cid, ok))
  {
    if cid in s.calls { assert CallOk(s, cid, s.calls[cid]); }
  }

  lemma CapturedStays(s: Shop, s': Shop)
    requires CapturedOnce(s) && TxsEvolve(s.txs, s'.txs) && s'.captures == s.captures
    ensures CapturedOnce(s')
  {
    forall id | id in s.captures ensures id in s'.txs && s'.txs[id].purchaseKey != "" && s'.txs[id].status != Declined {
      assert Life(s.txs[id], s'.txs[id]);
    }
  }

  lemma {:induction false} EachCapturedOnce(es: seq<Event>)
    ensures CapturedOnce(Run(INIT, es))
  {
    if es != [] {
      var s, e := Run(INIT, es[..|es| - 1]), es[|es| - 1];
      EachCapturedOnce(es[..|es| - 1]);
      RunsSound(es[..|es| - 1]);
      if e.StartCapture? {
        CaptureOnce(s, e.cid, e.ok);
      } else {
        OnlyCapturesCapture(s, e);
        StepEvolves(s, e);
        CapturedStays(s, Step(s, e));
      }
    }
  }

  /** The purchase path starts at most one capture for each merchant and key, and only of a stored, approved
      purchase. */
  lemma {:induction false} OneCapturePerKey(es: seq<Event>, i: nat, j: nat)
    requires i < j < |Run(INIT, es).captures|
    ensures var s := Run(INIT, es);
      && s.captures[i] in s.txs && s.captures[j] in s.txs
      && !SamePurchaseKey(s.txs[s.captures[i]], s.txs[s.captures[j]])
      && s.txs[s.captures[i]].purchaseKey != "" && s.txs[s.captures[i]].status != Declined
  {
    EachCapturedOnce(es);
    OneTransactionPerKey(es);
    var s := Run(INIT, es);
    assert s.captures[i] in s.captures && s.captures[j] in s.captures;
  }

  lemma EvolvingIsMovingOn(b: Book.Book, b': Book.Book, id: Id)
    requires BookProofs.RowsEvolve(b, b') && id in b.txs
    ensures id in b'.txs && Life(b.txs[id], b'.txs[id])
  {}

  /** The ledger's own steps on a stored row are moves this model allows. */
  lemma {:induction false} LedgerStepsAreMoves(es: seq<Ledger.Event>, e: Ledger.Event, id: Id)
    requires id in Ledger.Run(Ledger.INIT, es).book.txs
    ensures var l, l' := Ledger.Run(Ledger.INIT, es), Ledger.Step(Ledger.Run(Ledger.INIT, es), e);
      id in l'.book.txs && Life(l.book.txs[id], l'.book.txs[id])
  {
    var l := Ledger.Run(Ledger.INIT, es);
    LedgerMoney.StatusHistory(es, e);
    EvolvingIsMovingOn(l.book, Ledger.Step(l, e).book, id);
  }
}
