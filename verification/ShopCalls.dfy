/** What a purchase answers and leaves behind, field by field, and that nothing keeps it from doing so. */
module ShopCalls {
  import opened Base
  import opened Transactions
  import opened Catalog
  import opened Shop
  import opened ShopProofs
  import opened ShopTheorems

  // Stored keys.

  /** A request whose key is stored gets the stored purchase back if it is the same request, and a conflict if it
      differs in order, card or product. */
  predicate AnsweredFrom(id: Id, tx: Transaction, req: Request, reply: Reply) {
    if tx.orderRef == req.orderId && tx.cardToken == req.cardToken && tx.productId == Some(req.productId) then
      && reply.Success?
      && var r := reply.response;
         && r.transactionId == id && r.productId == req.productId && r.orderId == req.orderId
         && r.amount == tx.amount && r.currency == tx.currency && r.declineReason == tx.declineReason
         && r.status == (if tx.status == Authorized then CapturePending else tx.status)
    else reply == KeyConflict
  }

  /** The call is over, with this one answer. */
  predicate AnswersWith(s: Shop, s': Shop, cid: Id, req: Request, reply: Reply) {
    s'.answers == s.answers + [Answer(req, reply)] && cid !in s'.calls
  }

  lemma ReplayMeans(id: Id, tx: Transaction, req: Request)
    ensures AnsweredFrom(id, tx, req, Replay(id, tx, req))
  {}

  /** In every run, a new call whose key is stored is answered from the stored transaction, and nothing else happens. */
  lemma {:induction false} StoredKeyIsAnswered(es: seq<Event>, cid: Id, req: Request, found: Id)
    requires cid !in Run(INIT, es).calls && StoredUnder(Run(INIT, es).txs, found, req.merchantId, req.key)
    ensures var s, s' := Run(INIT, es), Step(Run(INIT, es), Begin(cid, req, found));
      exists reply :: AnswersWith(s, s', cid, req, reply) && AnsweredFrom(found, s.txs[found], req, reply)
  {
    var s := Run(INIT, es);
    ReplayMeans(found, s.txs[found], req);
    var reply := Replay(found, s.txs[found], req);
    assert AnswersWith(s, DoBegin(s, cid, req, found), cid, req, reply);
  }

  /** In every run, a call that lost its race finds the winner, and is answered from it. */
  lemma {:induction false} LostRaceIsAnswered(es: seq<Event>, cid: Id) returns (winner: Id)
    requires cid in Run(INIT, es).calls && Run(INIT, es).calls[cid].stage.Racing?
    ensures var s, req := Run(INIT, es), Run(INIT, es).calls[cid].req;
      && StoredUnder(s.txs, winner, req.merchantId, req.key)
      && exists reply ::
           && AnswersWith(s, Step(s, Resolve(cid, winner)), cid, req, reply)
           && AnsweredFrom(winner, s.txs[winner], req, reply)
  {
    var s, req := Run(INIT, es), Run(INIT, es).calls[cid].req;
    RacesAreResolved(es, cid);
    winner :| ResolvedBy(s, cid, winner);
    ReplayMeans(winner, s.txs[winner], req);
    assert AnswersWith(s, DoResolve(s, cid, winner), cid, req, Replay(winner, s.txs[winner], req));
  }

  /** In every run, a call that comes to insert its row and finds its key stored by then is answered from that row. */
  lemma {:induction false} LateInsertIsAnswered(es: seq<Event>, cid: Id, txid: Id, found: Id)
    requires cid in Run(INIT, es).calls && Run(INIT, es).calls[cid].stage.Decided?
    requires var s, req := Run(INIT, es), Run(INIT, es).calls[cid].req;
      && StoredUnder(s.txs, found, req.merchantId, req.key) && !KeyInFlight(s, req.merchantId, req.key)
      && txid !in s.txs && !IdInFlight(s, txid)
    ensures var s, req := Run(INIT, es), Run(INIT, es).calls[cid].req;
      exists reply ::
        && AnswersWith(s, Step(Step(s, Insert(cid, txid)), Resolve(cid, found)), cid, req, reply)
        && AnsweredFrom(found, s.txs[found], req, reply)
  {
    var s, req := Run(INIT, es), Run(INIT, es).calls[cid].req;
    RunsSound(es);
    assert CallOk(s, cid, s.calls[cid]);
    LosesRace(s, cid, txid, found);
    ReplayMeans(found, s.txs[found], req);
    var s1 := DoInsert(s, cid, txid);
    assert AnswersWith(s, DoResolve(s1, cid, found), cid, req, Replay(found, s.txs[found], req));
  }

  lemma LosesRace(s: Shop, cid: Id, txid: Id, found: Id)
    requires cid in s.calls && s.calls[cid].stage.Decided? && RowFor(s.calls[cid].req, s.calls[cid].stage.row)
    requires var req := s.calls[cid].req;
      && StoredUnder(s.txs, found, req.merchantId, req.key) && !KeyInFlight(s, req.merchantId, req.key)
      && txid !in s.txs && !IdInFlight(s, txid)
    ensures DoInsert(s, cid, txid) == s.(calls := s.calls[cid := s.calls[cid].(stage := Racing)])
  {
    assert HasPurchaseKey(s.txs[found], s.calls[cid].req.merchantId, s.calls[cid].req.key);
  }

  // New keys.

  /** What is left of a call once it has been answered: nothing. */
  function Rest(s: Shop, cid: Id, verdict: Option<Verdict>, txid: Id, now: int, captured: bool): Shop {
    DoStartCapture(DoCommit(DoMark(DoInsert(DoAskBank(s, cid, verdict), cid, txid), cid, now), cid), cid, captured)
  }

  function Statements(
      s: Shop, cid: Id, req: Request, verdict: Option<Verdict>, txid: Id, now: int, captured: bool): Shop
  {
    Rest(DoLoad(DoBegin(s, cid, req, ""), cid), cid, verdict, txid, now, captured)
  }

  /** Nobody is about to store a transaction under this key or id, nobody holds the product, and the key is new. */
  predicate Undisturbed(s: Shop, cid: Id, req: Request, txid: Id) {
    && cid !in s.calls && req.productId !in s.locks && txid !in s.txs && !IdInFlight(s, txid)
    && !KeyInFlight(s, req.merchantId, req.key)
    && forall id :: id in s.txs ==> !StoredUnder(s.txs, id, req.merchantId, req.key)
  }

  /** The purchase was refused before anything was stored. */
  predicate Refused(s: Shop, s': Shop, req: Request, why: Reply) {
    s' == s.(answers := s.answers + [Answer(req, why)])
  }

  function Bought(req: Request, p: Product, status: Status, reason: string): Transaction {
    Transaction(req.merchantId, req.orderId, p.price, p.currency, req.cardToken, status, reason, "", req.key,
      Some(req.productId), 0)
  }

  /** The product must be the merchant's own and active; a declined purchase is stored and marks nothing; an approved
      one is stored, marks the product if it is the first, and starts the capture, whose failure is told. */
  predicate PurchaseMeans(
      s: Shop, s': Shop, req: Request, verdict: Option<Verdict>, txid: Id, now: int, captured: bool)
  {
    var pid := req.productId;
    if req.key == "" then Refused(s, s', req, Failed)
    else if pid !in s.products || s.products[pid].merchantId != req.merchantId then Refused(s, s', req, ProductNotFound)
    else
      var p := s.products[pid];
      if p.archived then Refused(s, s', req, ProductArchived)
      else
        match verdict
        case None => Refused(s, s', req, Failed)
        case Some(Decline(reason)) =>
          && s'.txs == s.txs[txid := Bought(req, p, Declined, reason)] && s'.products == s.products
          && s'.captures == s.captures && s'.locks == s.locks && s'.calls == s.calls
          && s'.answers == s.answers
               + [Answer(req, Success(Response(txid, pid, req.orderId, Declined, p.price, p.currency, reason)))]
        case Some(Approve) =>
          var p' := if p.firstPurchasedAt.None? then p.(firstPurchasedAt := Some(now)) else p;
          var r := Response(txid, pid, req.orderId, CapturePending, p.price, p.currency, "");
          && s'.txs == s.txs[txid := Bought(req, p, Authorized, "")] && s'.products == s.products[pid := p']
          && s'.captures == s.captures + [txid] && s'.locks == s.locks && s'.calls == s.calls
          && s'.answers == s.answers
               + [Answer(req, if captured then Success(r) else PartiallyApplied(r.(status := Authorized)))]
  }

  /** The call `cid` is at stage `st`; nothing else has changed. */
  function At(s: Shop, cid: Id, req: Request, st: Stage): Shop {
    s.(calls := s.calls[cid := Call(req, st)])
  }

  lemma RestIsNothing(s: Shop, cid: Id, verdict: Option<Verdict>, txid: Id, now: int, captured: bool)
    requires cid !in s.calls
    ensures Rest(s, cid, verdict, txid, now, captured) == s
  {}

  lemma EndsAt(s: Shop, cid: Id, req: Request, st: Stage, reply: Reply)
    requires cid !in s.calls
    ensures Answered(At(s, cid, req, st), cid, reply) == s.(answers := s.answers + [Answer(req, reply)])
  {
    assert s.calls[cid := Call(req, st)] - {cid} == s.calls;
  }

  lemma Begins(s: Shop, cid: Id, req: Request, txid: Id)
    requires Undisturbed(s, cid, req, txid)
    ensures DoBegin(s, cid, req, "")
         == if req.key == "" then s.(answers := s.answers + [Answer(req, Failed)]) else At(s, cid, req, Checked)
  {
    EndsAt(s, cid, req, Checked, Failed);
    assert forall id :: id in s.txs && HasPurchaseKey(s.txs[id], req.merchantId, req.key) ==>
      StoredUnder(s.txs, id, req.merchantId, req.key);
  }

  lemma Loads(s: Shop, cid: Id, req: Request)
    requires cid !in s.calls
    ensures var s' := DoLoad(At(s, cid, req, Checked), cid); var pid := req.productId;
      if pid !in s.products || s.products[pid].merchantId != req.merchantId then Refused(s, s', req, ProductNotFound)
      else if s.products[pid].archived then Refused(s, s', req, ProductArchived)
      else
        var p := s.products[pid];
        s' == At(s, cid, req, Loaded(p.price, p.currency, p.firstPurchasedAt.Some?))
  {
    EndsAt(s, cid, req, Checked, ProductNotFound);
    EndsAt(s, cid, req, Checked, ProductArchived);
  }

  lemma Asks(s: Shop, cid: Id, req: Request, p: Product, priced: bool, verdict: Option<Verdict>)
    requires cid !in s.calls && req.key != ""
    ensures var s' := DoAskBank(At(s, cid, req, Loaded(p.price, p.currency, priced)), cid, verdict);
      match verdict
      case None => Refused(s, s', req, Failed)
      case Some(Decline(reason)) => s' == At(s, cid, req, Decided(Bought(req, p, Declined, reason), priced))
      case Some(Approve) => s' == At(s, cid, req, Decided(Bought(req, p, Authorized, ""), priced))
  {
    EndsAt(s, cid, req, Loaded(p.price, p.currency, priced), Failed);
    if verdict.Some? { NewRow(req, p, verdict.value); }
  }

  lemma NewRow(req: Request, p: Product, verdict: Verdict)
    requires req.key != ""
    ensures NewTransaction(AuthFor(req, p.price, p.currency), verdict)
         == match verdict
            case Approve => Bought(req, p, Authorized, "")
            case Decline(reason) => Bought(req, p, Declined, reason)
  {}

  lemma StillFree(s: Shop, s': Shop, cid: Id, req: Request, txid: Id)
    requires !IdInFlight(s, txid) && !KeyInFlight(s, req.merchantId, req.key)
    requires cid in s'.calls && !InFlight(s'.calls[cid]) && s'.calls == s.calls[cid := s'.calls[cid]]
    ensures !IdInFlight(s', txid) && !KeyInFlight(s', req.merchantId, req.key)
  {
    forall o | o in s'.calls && InFlight(s'.calls[o]) ensures o in s.calls && s.calls[o] == s'.calls[o] {}
  }

  lemma Inserts(s: Shop, cid: Id, req: Request, row: Transaction, priced: bool, txid: Id)
    requires Undisturbed(s, cid, req, txid) && row.merchantId == req.merchantId && row.purchaseKey == req.key
    ensures DoInsert(At(s, cid, req, Decided(row, priced)), cid, txid) == At(s, cid, req, Inserted(txid, row, priced))
  {
    var s' := At(s, cid, req, Decided(row, priced));
    StillFree(s, s', cid, req, txid);
    assert forall id :: id in s.txs && HasPurchaseKey(s.txs[id], req.merchantId, req.key) ==>
      StoredUnder(s.txs, id, req.merchantId, req.key);
  }

  lemma EndsDeclined(
      s: Shop, cid: Id, req: Request, p: Product, reason: string, priced: bool, txid: Id, now: int, captured: bool)
    requires cid !in s.calls
    ensures var row := Bought(req, p, Declined, reason);
      var s1 := At(s, cid, req, Inserted(txid, row, priced));
      var s' := DoStartCapture(DoCommit(DoMark(s1, cid, now), cid), cid, captured);
      var r := Response(txid, req.productId, req.orderId, Declined, p.price, p.currency, reason);
      && s'.txs == s.txs[txid := row] && s'.products == s.products && s'.captures == s.captures
      && s'.locks == s.locks && s'.calls == s.calls && s'.answers == s.answers + [Answer(req, Success(r))]
  {
    var s1 := At(s, cid, req, Inserted(txid, Bought(req, p, Declined, reason), priced));
    assert DoMark(s1, cid, now) == s1;
    assert s1.calls - {cid} == s.calls;
  }

  lemma Marks(s: Shop, cid: Id, req: Request, row: Transaction, priced: bool, txid: Id, now: int)
    requires cid !in s.calls && req.productId !in s.locks && row.status == Authorized
    requires req.productId in s.products && s.products[req.productId].merchantId == req.merchantId
    ensures var s' := DoMark(At(s, cid, req, Inserted(txid, row, priced)), cid, now); var pid := req.productId;
      if s.products[pid].firstPurchasedAt.Some? then s' == At(s, cid, req, Marked(txid, row, priced, None))
      else s' == At(s, cid, req, Marked(txid, row, priced, Some(now))).(locks := s.locks[pid := cid])
  {}

  lemma Commits(s: Shop, cid: Id, req: Request, row: Transaction, priced: bool, txid: Id, at: Option<int>)
    requires cid !in s.calls && req.productId !in s.locks && row.status == Authorized && req.productId in s.products
    ensures var pid := req.productId;
      var s1 := At(s, cid, req, Marked(txid, row, priced, at));
      var s' := DoCommit(if at.Some? then s1.(locks := s.locks[pid := cid]) else s1, cid);
      && s'.txs == s.txs[txid := row] && s'.locks == s.locks && s'.captures == s.captures && s'.answers == s.answers
      && s'.products
           == s.products[pid := if at.Some? then s.products[pid].(firstPurchasedAt := at) else s.products[pid]]
      && s'.calls == s.calls[cid := Call(req, Stored(txid, row))]
  {
    assert s.locks[req.productId := cid] - {req.productId} == s.locks;
  }

  lemma Captures(s: Shop, s1: Shop, cid: Id, req: Request, p: Product, txid: Id, captured: bool)
    requires cid !in s.calls && s1.calls == s.calls[cid := Call(req, Stored(txid, Bought(req, p, Authorized, "")))]
    ensures var s' := DoStartCapture(s1, cid, captured);
      var r := Response(txid, req.productId, req.orderId, CapturePending, p.price, p.currency, "");
      && s'.txs == s1.txs && s'.products == s1.products && s'.locks == s1.locks && s'.calls == s.calls
      && s'.captures == s1.captures + [txid]
      && s'.answers == s1.answers
           + [Answer(req, if captured then Success(r) else PartiallyApplied(r.(status := Authorized)))]
  {
    assert s1.calls - {cid} == s.calls;
  }

  /** From any state, reachable or not: the statements of a purchase that nobody disturbs end as said. */
  lemma UndisturbedPurchase(
      s: Shop, cid: Id, req: Request, verdict: Option<Verdict>, txid: Id, now: int, captured: bool)
    requires Undisturbed(s, cid, req, txid)
    ensures PurchaseMeans(s, Statements(s, cid, req, verdict, txid, now, captured), req, verdict, txid, now, captured)
  {
    var pid := req.productId;
    Begins(s, cid, req, txid);
    Loads(s, cid, req);
    if req.key == "" {
      assert DoLoad(DoBegin(s, cid, req, ""), cid) == DoBegin(s, cid, req, "");
      RestIsNothing(DoBegin(s, cid, req, ""), cid, verdict, txid, now, captured);
    } else if pid !in s.products || s.products[pid].merchantId != req.merchantId || s.products[pid].archived {
      RestIsNothing(DoLoad(At(s, cid, req, Checked), cid), cid, verdict, txid, now, captured);
    } else {
      BuysLoaded(s, cid, req, verdict, txid, now, captured);
    }
  }

  lemma BuysLoaded(s: Shop, cid: Id, req: Request, verdict: Option<Verdict>, txid: Id, now: int, captured: bool)
    requires Undisturbed(s, cid, req, txid) && req.key != ""
    requires Owned(s.products, req.merchantId, req.productId) && !s.products[req.productId].archived
    ensures var p := s.products[req.productId];
      var s1 := At(s, cid, req, Loaded(p.price, p.currency, p.firstPurchasedAt.Some?));
      PurchaseMeans(s, Rest(s1, cid, verdict, txid, now, captured), req, verdict, txid, now, captured)
  {
    var p := s.products[req.productId];
    var priced := p.firstPurchasedAt.Some?;
    Asks(s, cid, req, p, priced, verdict);
    match verdict
    case None =>
      var s1 := DoAskBank(At(s, cid, req, Loaded(p.price, p.currency, priced)), cid, verdict);
      assert DoInsert(s1, cid, txid) == s1 && DoMark(s1, cid, now) == s1 && DoCommit(s1, cid) == s1;
    case Some(Decline(reason)) =>
      Inserts(s, cid, req, Bought(req, p, Declined, reason), priced, txid);
      EndsDeclined(s, cid, req, p, reason, priced, txid, now, captured);
    case Some(Approve) =>
      Inserts(s, cid, req, Bought(req, p, Authorized, ""), priced, txid);
      EndsApproved(s, cid, req, txid, now, captured);
  }

  lemma EndsApproved(s: Shop, cid: Id, req: Request, txid: Id, now: int, captured: bool)
    requires cid !in s.calls && req.productId !in s.locks && req.key != ""
    requires Owned(s.products, req.merchantId, req.productId) && !s.products[req.productId].archived
    ensures var p := s.products[req.productId];
      var s1 := At(s, cid, req, Inserted(txid, Bought(req, p, Authorized, ""), p.firstPurchasedAt.Some?));
      PurchaseMeans(s, DoStartCapture(DoCommit(DoMark(s1, cid, now), cid), cid, captured),
        req, Some(Approve), txid, now, captured)
  {
    var p := s.products[req.productId];
    var row, priced := Bought(req, p, Authorized, ""), p.firstPurchasedAt.Some?;
    var at := if priced then None else Some(now);
    Marks(s, cid, req, row, priced, txid, now);
    Commits(s, cid, req, row, priced, txid, at);
    var s2 := DoCommit(DoMark(At(s, cid, req, Inserted(txid, row, priced)), cid, now), cid);
    Captures(s, s2, cid, req, p, txid, captured);
  }

  // Products.

  /** Another product of the same merchant has this slug. */
  predicate UsesSlug(products: map<Id, Product>, other: Id, p: Product) {
    other in products && products[other].slug == p.slug && products[other].merchantId == p.merchantId
  }

  /** A merchant archives and unarchives, and marks, its own products; a new one must meet the table's constraints.
      Nobody writes a row a purchase holds. */
  lemma CatalogStepsMean(s: Shop, merchant: string, id: Id, archived: bool, now: int, p: Product)
    ensures var mine := id in s.products && s.products[id].merchantId == merchant && id !in s.locks;
      && DoSetArchived(s, merchant, id, archived).products
           == (if mine then s.products[id := s.products[id].(archived := archived)] else s.products)
      && DoMarkAlone(s, merchant, id, now).products
           == (if mine && s.products[id].firstPurchasedAt.None?
               then s.products[id := s.products[id].(firstPurchasedAt := Some(now))] else s.products)
    ensures var fits := id !in s.products && p.price > 0 && |p.currency| == 3 && p.firstPurchasedAt.None?;
      var taken := p.slug.Some? && exists other :: UsesSlug(s.products, other, p) && other != id;
      DoCreateProduct(s, id, p).products == if fits && !taken then s.products[id := p] else s.products
  {
    assert forall other :: other in s.products ==>
      (SlugClash(s.products[other], p) <==> p.slug.Some? && UsesSlug(s.products, other, p));
    assert SlugTaken(s.products, id, p) <==>
      exists other :: other in s.products && other != id && SlugClash(s.products[other], p);
  }
}
