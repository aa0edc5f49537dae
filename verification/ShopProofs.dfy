/** What every interleaving of purchases and product edits keeps. */
module ShopProofs {
  import opened Base
  import opened Transactions
  import opened Catalog
  import opened Shop

  // How stored rows may change.

  /** Once purchased, a product's locked fields and its first purchase are final. */
  predicate ProductKept(p: Product, p': Product) {
    && p'.merchantId == p.merchantId
    && (p.firstPurchasedAt.Some? ==>
          p'.firstPurchasedAt == p.firstPurchasedAt && p'.slug == p.slug
          && p'.price == p.price && p'.currency == p.currency)
  }

  predicate ProductsEvolve(ps: map<Id, Product>, ps': map<Id, Product>) {
    forall id :: id in ps ==> id in ps' && ProductKept(ps[id], ps'[id])
  }

  predicate TxsEvolve(ts: map<Id, Transaction>, ts': map<Id, Transaction>) {
    forall id :: id in ts ==> id in ts' && Life(ts[id], ts'[id])
  }

  // Purchase calls.

  /** The row a request leads to, whatever the bank says. */
  predicate RowFor(req: Request, row: Transaction) {
    && row.merchantId == req.merchantId && row.orderRef == req.orderId && row.cardToken == req.cardToken
    && row.purchaseKey == req.key && row.productId == Some(req.productId)
    && (row.status == Authorized || row.status == Declined)
  }

  /** The product is purchased, and sells for exactly this. */
  predicate FinalPrice(products: map<Id, Product>, pid: Id, amount: int, currency: string) {
    && pid in products && products[pid].firstPurchasedAt.Some?
    && products[pid].price == amount && products[pid].currency == currency
  }

  predicate NewRow(txs: map<Id, Transaction>, txid: Id, row: Transaction) {
    txid !in txs && !PurchaseKeyUsed(txs, row.merchantId, row.purchaseKey)
  }

  predicate StageOk(s: Shop, cid: Id, req: Request, st: Stage) {
    match st
    case Checked => true
    case Loaded(price, currency, priced) => priced ==> FinalPrice(s.products, req.productId, price, currency)
    case Decided(row, priced) =>
      RowFor(req, row) && (priced ==> FinalPrice(s.products, req.productId, row.amount, row.currency))
    case Inserted(txid, row, priced) =>
      && RowFor(req, row) && (priced ==> FinalPrice(s.products, req.productId, row.amount, row.currency))
      && NewRow(s.txs, txid, row)
    case Marked(txid, row, priced, at) =>
      && RowFor(req, row) && (priced ==> FinalPrice(s.products, req.productId, row.amount, row.currency))
      && NewRow(s.txs, txid, row) && row.status == Authorized
      && req.productId in s.products && s.products[req.productId].firstPurchasedAt.Some? == at.None?
      && (at.Some? ==> req.productId in s.locks && s.locks[req.productId] == cid)
    case Stored(txid, row) =>
      && RowFor(req, row) && row.status == Authorized
      && txid in s.txs && Life(row, s.txs[txid]) && txid !in s.captures
    case Racing => PurchaseKeyUsed(s.txs, req.merchantId, req.key)
  }

  predicate CallOk(s: Shop, cid: Id, c: Call) {
    && c.req.key != ""
    && (!c.stage.Checked? ==> Owned(s.products, c.req.merchantId, c.req.productId))
    && StageOk(s, cid, c.req, c.stage)
  }

  predicate Calls(s: Shop) {
    forall cid :: cid in s.calls ==> CallOk(s, cid, s.calls[cid])
  }

  predicate Apart(a: Call, b: Call) {
    && (InFlight(a) && InFlight(b) ==>
          a.stage.txid != b.stage.txid && !SamePurchaseKey(a.stage.row, b.stage.row))
    && (a.stage.Stored? && b.stage.Stored? ==> a.stage.txid != b.stage.txid)
  }

  /** No two calls are about to store, or to capture, the same purchase. */
  predicate Distinct(s: Shop) {
    forall a, b :: a in s.calls && b in s.calls && a != b ==> Apart(s.calls[a], s.calls[b])
  }

  predicate LocksBacked(s: Shop) {
    forall pid :: pid in s.locks ==>
      var cid := s.locks[pid];
      && cid in s.calls && s.calls[cid].req.productId == pid
      && s.calls[cid].stage.Marked? && s.calls[cid].stage.at.Some?
  }

  predicate CapturesStored(s: Shop) {
    forall id :: id in s.captures ==> id in s.txs
  }

  predicate Sound(s: Shop) {
    Calls(s) && Distinct(s) && LocksBacked(s) && CapturesStored(s)
  }

  // Evolution: every event.

  /** Only a purchase that locked an unpurchased product stamps it. */
  lemma CommitEvolves(s: Shop, cid: Id)
    requires Calls(s) && cid in s.calls && ReadyToCommit(s.calls[cid].stage)
    ensures TxsEvolve(s.txs, Committed(s, cid).txs) && ProductsEvolve(s.products, Committed(s, cid).products)
  {
    assert CallOk(s, cid, s.calls[cid]);
  }

  /** Events of a purchase call other than its commit leave the tables alone. */
  lemma CallTables(s: Shop, e: Event)
    requires IsCall(e) && !e.Commit?
    ensures Step(s, e).txs == s.txs && Step(s, e).products == s.products && Step(s, e).priced == s.priced
    ensures Step(s, e).markedAlone == s.markedAlone
  {
    match e
    case Begin(cid, req, found) => BeginTables(s, cid, req, found);
    case Insert(cid, txid) => InsertTables(s, cid, txid);
    case Mark(cid, now) => MarkTables(s, cid, now);
    case Resolve(cid, found) => ResolveTables(s, cid, found);
    case _ =>
  }

  lemma BeginTables(s: Shop, cid: Id, req: Request, found: Id)
    ensures var s' := DoBegin(s, cid, req, found); s'.(calls := s.calls, answers := s.answers) == s
  {
    if cid !in s.calls {
      var s1 := s.(calls := s.calls[cid := Call(req, Checked)]);
      assert s1.(calls := s.calls, answers := s.answers) == s;
      assert forall reply :: Answered(s1, cid, reply).(calls := s.calls, answers := s.answers) == s;
    }
  }

  lemma InsertTables(s: Shop, cid: Id, txid: Id)
    ensures var s' := DoInsert(s, cid, txid); s'.(calls := s.calls) == s
  {}

  lemma MarkTables(s: Shop, cid: Id, now: int)
    ensures var s' := DoMark(s, cid, now); s'.(calls := s.calls, answers := s.answers, locks := s.locks) == s
  {}

  lemma ResolveTables(s: Shop, cid: Id, found: Id)
    ensures var s' := DoResolve(s, cid, found); s'.(calls := s.calls, answers := s.answers) == s
  {}

  lemma WriteEvolves(s: Shop, eid: Id)
    ensures ProductsEvolve(s.products, DoWriteEdit(s, eid).products) && DoWriteEdit(s, eid).txs == s.txs
  {
    if eid in s.edits && !s.edits[eid].missed && s.edits[eid].id !in s.locks {
      var e := s.edits[eid];
      match GuardedWrite(s.products, e.merchantId, e.id, e.update)
      case Hit(row) => assert ProductKept(s.products[e.id], row);
      case _ =>
    }
  }

  lemma CallStepEvolves(s: Shop, e: Event)
    requires Calls(s) && IsCall(e)
    ensures TxsEvolve(s.txs, Step(s, e).txs) && ProductsEvolve(s.products, Step(s, e).products)
  {
    if e.Commit? {
      if e.cid in s.calls && ReadyToCommit(s.calls[e.cid].stage) { CommitEvolves(s, e.cid); }
    } else {
      CallTables(s, e);
    }
  }

  /** Events of purchase calls. */
  predicate IsCall(e: Event) {
    match e
    case Begin(_, _, _) => true
    case Load(_) => true
    case AskBank(_, _) => true
    case Insert(_, _) => true
    case Mark(_, _) => true
    case Commit(_) => true
    case StartCapture(_, _) => true
    case Resolve(_, _) => true
    case Drop(_) => true
    case _ => false
  }

  // Calls that an event does not advance keep what they rely on.

  /** The rest of the world moved: rows evolved, new rows have other keys and ids, held locks are kept. */
  predicate MovedAround(s: Shop, s': Shop, cid: Id, c: Call) {
    && TxsEvolve(s.txs, s'.txs) && ProductsEvolve(s.products, s'.products)
    && (InFlight(c) ==> NewRow(s'.txs, c.stage.txid, c.stage.row))
    && (c.stage.Marked? && c.stage.at.Some? ==>
          && c.req.productId in s'.locks && s'.locks[c.req.productId] == cid
          && c.req.productId in s'.products && s'.products[c.req.productId].firstPurchasedAt.None?)
    && (c.stage.Stored? ==> c.stage.txid !in s'.captures)
  }

  lemma CallStays(s: Shop, s': Shop, cid: Id, c: Call)
    requires CallOk(s, cid, c) && MovedAround(s, s', cid, c)
    ensures CallOk(s', cid, c)
  {
    if c.stage.Racing? { KeyStaysUsed(s.txs, s'.txs, c.req.merchantId, c.req.key); }
    if c.stage.Stored? { LifeChains(c.stage.row, s.txs[c.stage.txid], s'.txs[c.stage.txid]); }
  }

  lemma LifeChains(a: Transaction, b: Transaction, c: Transaction)
    requires Life(a, b) && Life(b, c)
    ensures Life(a, c)
  {}

  lemma KeyStaysUsed(ts: map<Id, Transaction>, ts': map<Id, Transaction>, merchant: string, key: string)
    requires TxsEvolve(ts, ts') && PurchaseKeyUsed(ts, merchant, key)
    ensures PurchaseKeyUsed(ts', merchant, key)
  {
    var id :| id in ts && HasPurchaseKey(ts[id], merchant, key);
    assert HasPurchaseKey(ts'[id], merchant, key);
  }

  /** A step of call `cid` that leaves the tables alone. */
  predicate Quiet(s: Shop, s': Shop, cid: Id) {
    && s'.txs == s.txs && s'.products == s.products && s'.captures == s.captures
    && (forall other :: other in s'.calls && other != cid ==> other in s.calls && s'.calls[other] == s.calls[other])
    && (forall pid :: pid in s.locks && s.locks[pid] != cid ==> pid in s'.locks && s'.locks[pid] == s.locks[pid])
  }

  lemma QuietMoves(s: Shop, s': Shop, cid: Id, other: Id)
    requires Quiet(s, s', cid) && other in s'.calls && other != cid && CallOk(s, other, s.calls[other])
    ensures MovedAround(s, s', other, s.calls[other])
  {}

  lemma QuietCalls(s: Shop, s': Shop, cid: Id)
    requires Calls(s) && Quiet(s, s', cid) && (cid in s'.calls ==> CallOk(s', cid, s'.calls[cid]))
    ensures Calls(s')
  {
    forall other | other in s'.calls && other != cid ensures CallOk(s', other, s'.calls[other]) {
      QuietMoves(s, s', cid, other);
      CallStays(s, s', other, s.calls[other]);
    }
  }

  lemma BeginCalls(s: Shop, cid: Id, req: Request, found: Id)
    requires Calls(s)
    ensures Calls(DoBegin(s, cid, req, found))
  {
    if cid !in s.calls { QuietCalls(s, DoBegin(s, cid, req, found), cid); }
  }

  lemma LoadCalls(s: Shop, cid: Id)
    requires Calls(s)
    ensures Calls(DoLoad(s, cid))
  {
    if cid in s.calls { QuietCalls(s, DoLoad(s, cid), cid); }
  }

  lemma AskBankCalls(s: Shop, cid: Id, verdict: Option<Verdict>)
    requires Calls(s)
    ensures Calls(DoAskBank(s, cid, verdict))
  {
    if cid in s.calls { QuietCalls(s, DoAskBank(s, cid, verdict), cid); }
  }

  lemma InsertCalls(s: Shop, cid: Id, txid: Id)
    requires Calls(s)
    ensures Calls(DoInsert(s, cid, txid))
  {
    if cid in s.calls { QuietCalls(s, DoInsert(s, cid, txid), cid); }
  }

  lemma MarkIsQuiet(s: Shop, cid: Id, now: int)
    requires cid in s.calls
    ensures Quiet(s, DoMark(s, cid, now), cid)
  {}

  lemma MarkOwn(s: Shop, cid: Id, now: int)
    requires cid in s.calls && CallOk(s, cid, s.calls[cid])
    ensures cid in DoMark(s, cid, now).calls ==> CallOk(DoMark(s, cid, now), cid, DoMark(s, cid, now).calls[cid])
  {
    var s', c := DoMark(s, cid, now), s.calls[cid];
    MarkTables(s, cid, now);
    if c.stage.Inserted? && cid in s'.calls && s'.calls[cid].stage.Marked? {
      var st := s'.calls[cid].stage;
      assert st == Marked(c.stage.txid, c.stage.row, c.stage.priced, st.at);
      assert StageOk(s', cid, c.req, st);
    }
  }

  lemma MarkCalls(s: Shop, cid: Id, now: int)
    requires Calls(s)
    ensures Calls(DoMark(s, cid, now))
  {
    if cid in s.calls {
      MarkIsQuiet(s, cid, now);
      MarkOwn(s, cid, now);
      QuietCalls(s, DoMark(s, cid, now), cid);
    }
  }

  lemma ResolveCalls(s: Shop, cid: Id, found: Id)
    requires Calls(s)
    ensures Calls(DoResolve(s, cid, found))
  {
    if cid in s.calls { QuietCalls(s, DoResolve(s, cid, found), cid); }
  }

  lemma DropCalls(s: Shop, cid: Id)
    requires Calls(s)
    ensures Calls(DoDrop(s, cid))
  {
    if cid in s.calls {
      assert CallOk(s, cid, s.calls[cid]);
      QuietCalls(s, DoDrop(s, cid), cid);
    }
  }

  lemma StartCaptureCalls(s: Shop, cid: Id, ok: bool)
    requires Calls(s) && Distinct(s)
    ensures Calls(DoStartCapture(s, cid, ok))
  {
    var s' := DoStartCapture(s, cid, ok);
    if cid in s.calls && s.calls[cid].stage.Stored? {
      forall other | other in s'.calls && other != cid ensures CallOk(s', other, s'.calls[other]) {
        assert Apart(s.calls[other], s.calls[cid]);
        CallStays(s, s', other, s.calls[other]);
      }
    }
  }

  /** Another call's commit takes neither the id nor the key, nor the product lock, of a call in flight. */
  lemma CommitMoves(s: Shop, cid: Id, other: Id)
    requires Calls(s) && Distinct(s) && cid in s.calls && ReadyToCommit(s.calls[cid].stage)
    requires other in s.calls && other != cid
    ensures MovedAround(s, Committed(s, cid), other, s.calls[other])
  {
    CommitEvolves(s, cid);
    assert CallOk(s, cid, s.calls[cid]) && CallOk(s, other, s.calls[other]);
    assert Apart(s.calls[cid], s.calls[other]) && Apart(s.calls[other], s.calls[cid]);
    if InFlight(s.calls[other]) { StillNew(s, cid, s.calls[other].stage.txid, s.calls[other].stage.row); }
  }

  lemma StillNew(s: Shop, cid: Id, txid: Id, row: Transaction)
    requires cid in s.calls && ReadyToCommit(s.calls[cid].stage) && NewRow(s.txs, txid, row)
    requires s.calls[cid].stage.txid != txid && !SamePurchaseKey(s.calls[cid].stage.row, row)
    ensures NewRow(Committed(s, cid).txs, txid, row)
  {}

  lemma CommitCalls(s: Shop, cid: Id)
    requires Calls(s) && Distinct(s) && CapturesStored(s)
    ensures Calls(DoCommit(s, cid))
  {
    if cid in s.calls && ReadyToCommit(s.calls[cid].stage) {
      var s' := DoCommit(s, cid);
      forall other | other in s'.calls && other != cid ensures CallOk(s', other, s'.calls[other]) {
        CommitMoves(s, cid, other);
        CallStays(s, s', other, s.calls[other]);
      }
      CommitOwn(s, cid);
    }
  }

  lemma CommitOwn(s: Shop, cid: Id)
    requires Calls(s) && CapturesStored(s) && cid in s.calls && ReadyToCommit(s.calls[cid].stage)
    ensures cid in DoCommit(s, cid).calls ==> CallOk(DoCommit(s, cid), cid, DoCommit(s, cid).calls[cid])
  {
    assert CallOk(s, cid, s.calls[cid]);
  }

  /** An event outside the purchase calls: locked products stay as they are, and new transactions have no key. */
  predicate Outside(s: Shop, s': Shop) {
    && s'.calls == s.calls && s'.locks == s.locks && s'.captures == s.captures
    && TxsEvolve(s.txs, s'.txs) && ProductsEvolve(s.products, s'.products)
    && (forall id :: id in s'.txs && id !in s.txs ==> s'.txs[id].purchaseKey == "" && !IdInFlight(s, id))
    && (forall pid :: pid in s.locks && pid in s.products ==> s'.products[pid] == s.products[pid])
  }

  lemma OutsideMoves(s: Shop, s': Shop, cid: Id)
    requires Outside(s, s') && cid in s.calls && CallOk(s, cid, s.calls[cid])
    ensures MovedAround(s, s', cid, s.calls[cid])
  {
    var c := s.calls[cid];
    if InFlight(c) {
      forall id | id in s'.txs
        ensures id != c.stage.txid && !HasPurchaseKey(s'.txs[id], c.stage.row.merchantId, c.stage.row.purchaseKey)
      {
        if id in s.txs { assert Life(s.txs[id], s'.txs[id]); }
      }
    }
  }

  lemma OutsideCalls(s: Shop, s': Shop)
    requires Calls(s) && Outside(s, s')
    ensures Calls(s')
  {
    forall cid | cid in s.calls ensures CallOk(s', cid, s.calls[cid]) {
      OutsideMoves(s, s', cid);
      CallStays(s, s', cid, s.calls[cid]);
    }
  }

  lemma WriteIsOutside(s: Shop, eid: Id)
    ensures Outside(s, DoWriteEdit(s, eid))
  {
    WriteEvolves(s, eid);
  }

  /** Nothing of an event outside the purchase calls reaches the tables either. */
  lemma SameIsOutside(s: Shop, s': Shop)
    requires s'.(edits := s.edits, editAnswers := s.editAnswers) == s
    ensures Outside(s, s')
  {}

  lemma ReadsLeaveTables(s: Shop, eid: Id, merchant: string, id: Id, req: UpdateRequest)
    ensures DoReadEdit(s, eid, merchant, id, req).(edits := s.edits, editAnswers := s.editAnswers) == s
    ensures DoExplainEdit(s, eid).(edits := s.edits, editAnswers := s.editAnswers) == s
  {
    ReadLeavesTables(s, eid, merchant, id, req);
  }

  lemma ReadLeavesTables(s: Shop, eid: Id, merchant: string, id: Id, req: UpdateRequest)
    ensures DoReadEdit(s, eid, merchant, id, req).(edits := s.edits, editAnswers := s.editAnswers) == s
  {
    if eid !in s.edits && Owned(s.products, merchant, id) {
      match NewUpdate(req, s.products[id])
      case Err(e) =>
      case Ok(u) =>
    }
  }

  lemma ReadsAreOutside(s: Shop, eid: Id, merchant: string, id: Id, req: UpdateRequest)
    ensures Outside(s, DoReadEdit(s, eid, merchant, id, req)) && Outside(s, DoExplainEdit(s, eid))
  {
    ReadsLeaveTables(s, eid, merchant, id, req);
    SameIsOutside(s, DoReadEdit(s, eid, merchant, id, req));
    SameIsOutside(s, DoExplainEdit(s, eid));
  }

  /** One unlocked product was rewritten, keeping what a purchase has fixed. */
  lemma RewriteIsOutside(s: Shop, s': Shop, id: Id, p: Product)
    requires id in s.products && id !in s.locks && ProductKept(s.products[id], p)
    requires s' == s.(products := s.products[id := p], markedAlone := s'.markedAlone)
    ensures Outside(s, s')
  {}

  lemma ArchivingIsOutside(s: Shop, merchant: string, id: Id, archived: bool)
    ensures Outside(s, DoSetArchived(s, merchant, id, archived))
  {
    var s' := DoSetArchived(s, merchant, id, archived);
    if Owned(s.products, merchant, id) && id !in s.locks { RewriteIsOutside(s, s', id, s'.products[id]); }
  }

  lemma MarkAloneIsOutside(s: Shop, merchant: string, id: Id, now: int)
    ensures Outside(s, DoMarkAlone(s, merchant, id, now))
  {
    var s' := DoMarkAlone(s, merchant, id, now);
    if Owned(s.products, merchant, id) && id !in s.locks && s.products[id].firstPurchasedAt.None? {
      RewriteIsOutside(s, s', id, s'.products[id]);
    }
  }

  lemma CreationIsOutside(s: Shop, id: Id, p: Product)
    ensures Outside(s, DoCreateProduct(s, id, p))
  {}

  lemma MovesAreOutside(s: Shop, txid: Id, tx: Transaction)
    ensures Outside(s, DoMoveOn(s, txid, tx))
  {}

  lemma PlainRowsAreOutside(s: Shop, txid: Id, tx: Transaction)
    ensures Outside(s, DoAuthorizeOnly(s, txid, tx))
  {}

  lemma {:induction false} OtherIsOutside(s: Shop, e: Event)
    requires !IsCall(e)
    ensures Outside(s, Step(s, e))
  {
    match e
    case WriteEdit(eid) => WriteIsOutside(s, eid);
    case ReadEdit(eid, merchant, id, req) => ReadsAreOutside(s, eid, merchant, id, req);
    case ExplainEdit(eid) => ReadsAreOutside(s, eid, "", "", UpdateRequest(None, None, None, None, None));
    case SetArchived(merchant, id, archived) => ArchivingIsOutside(s, merchant, id, archived);
    case MarkAlone(merchant, id, now) => MarkAloneIsOutside(s, merchant, id, now);
    case CreateProduct(id, p) => CreationIsOutside(s, id, p);
    case MoveOn(txid, tx) => MovesAreOutside(s, txid, tx);
    case AuthorizeOnly(txid, tx) => PlainRowsAreOutside(s, txid, tx);
  }

  /** Every committed change keeps what a purchase has fixed, and what a transaction was made for. */
  lemma {:induction false} StepEvolves(s: Shop, e: Event)
    requires Calls(s)
    ensures TxsEvolve(s.txs, Step(s, e).txs) && ProductsEvolve(s.products, Step(s, e).products)
  {
    if IsCall(e) { CallStepEvolves(s, e); } else { OtherIsOutside(s, e); }
  }

  // Calls in flight stay apart.

  lemma DistinctAfter(s: Shop, s': Shop, cid: Id)
    requires Distinct(s)
    requires forall other :: other in s'.calls && other != cid ==> other in s.calls && s'.calls[other] == s.calls[other]
    requires cid in s'.calls ==>
      forall other :: other in s'.calls && other != cid ==>
        Apart(s'.calls[cid], s'.calls[other]) && Apart(s'.calls[other], s'.calls[cid])
    ensures Distinct(s')
  {}

  lemma BeginDistinct(s: Shop, cid: Id, req: Request, found: Id)
    requires Distinct(s)
    ensures Distinct(DoBegin(s, cid, req, found))
  {
    DistinctAfter(s, DoBegin(s, cid, req, found), cid);
  }

  lemma NewcomerApart(a: Call, b: Call)
    requires a.stage.Inserted? && InFlight(b) && a.stage.txid != b.stage.txid
    requires !HasPurchaseKey(b.stage.row, a.stage.row.merchantId, a.stage.row.purchaseKey)
    ensures Apart(a, b) && Apart(b, a)
  {}

  lemma InsertDistinct(s: Shop, cid: Id, txid: Id)
    requires Distinct(s)
    ensures Distinct(DoInsert(s, cid, txid))
  {
    var s' := DoInsert(s, cid, txid);
    if s' != s {
      InsertMovesOne(s, cid, txid);
      forall other | other in s.calls && other != cid
        ensures Apart(s'.calls[cid], s.calls[other]) && Apart(s.calls[other], s'.calls[cid])
      {
        InsertedApart(s, cid, txid, other);
      }
      DistinctAfter(s, s', cid);
    }
  }

  lemma InsertMovesOne(s: Shop, cid: Id, txid: Id)
    requires DoInsert(s, cid, txid) != s
    ensures var s' := DoInsert(s, cid, txid);
      cid in s.calls && cid in s'.calls && s'.calls == s.calls[cid := s'.calls[cid]]
  {}

  lemma InsertedApart(s: Shop, cid: Id, txid: Id, other: Id)
    requires DoInsert(s, cid, txid) != s && other in s.calls && other != cid
    ensures cid in DoInsert(s, cid, txid).calls
    ensures var c := DoInsert(s, cid, txid).calls[cid]; Apart(c, s.calls[other]) && Apart(s.calls[other], c)
  {
    var c := DoInsert(s, cid, txid).calls[cid];
    if c.stage.Inserted? && InFlight(s.calls[other]) {
      assert !HasPurchaseKey(s.calls[other].stage.row, c.stage.row.merchantId, c.stage.row.purchaseKey);
      assert s.calls[other].stage.txid != txid;
      NewcomerApart(c, s.calls[other]);
    }
  }

  lemma StaysApart(a: Call, a': Call, b: Call)
    requires Apart(a, b) && Apart(b, a) && a.stage.Inserted? && a'.stage.Marked?
    requires a'.stage.txid == a.stage.txid && a'.stage.row == a.stage.row
    ensures Apart(a', b) && Apart(b, a')
  {}

  lemma MarkMovesOne(s: Shop, cid: Id, now: int)
    ensures var s' := DoMark(s, cid, now);
      s'.calls == s.calls || s'.calls == s.calls - {cid}
      || (cid in s.calls && cid in s'.calls && s'.calls == s.calls[cid := s'.calls[cid]])
  {}

  lemma MarkKeepsRow(s: Shop, cid: Id, now: int)
    requires cid in s.calls && cid in DoMark(s, cid, now).calls && DoMark(s, cid, now).calls[cid] != s.calls[cid]
    ensures var a, a' := s.calls[cid].stage, DoMark(s, cid, now).calls[cid].stage;
      a.Inserted? && a'.Marked? && a'.txid == a.txid && a'.row == a.row
  {}

  lemma MarkDistinct(s: Shop, cid: Id, now: int)
    requires Distinct(s)
    ensures Distinct(DoMark(s, cid, now))
  {
    var s' := DoMark(s, cid, now);
    MarkMovesOne(s, cid, now);
    if cid in s'.calls && s'.calls[cid] != s.calls[cid] {
      MarkKeepsRow(s, cid, now);
      forall other | other in s.calls && other != cid
        ensures Apart(s'.calls[cid], s.calls[other]) && Apart(s.calls[other], s'.calls[cid])
      {
        StaysApart(s.calls[cid], s'.calls[cid], s.calls[other]);
      }
    }
    DistinctAfter(s, s', cid);
  }

  lemma CommitDistinct(s: Shop, cid: Id)
    requires Distinct(s) && Calls(s)
    ensures Distinct(DoCommit(s, cid))
  {
    var s' := DoCommit(s, cid);
    if s' != s && cid in s'.calls {
      forall other | other in s.calls && other != cid
        ensures Apart(s'.calls[cid], s.calls[other]) && Apart(s.calls[other], s'.calls[cid])
      {
        assert CallOk(s, cid, s.calls[cid]) && CallOk(s, other, s.calls[other]);
      }
    }
    DistinctAfter(s, s', cid);
  }

  lemma LoadMovesOne(s: Shop, cid: Id)
    ensures var s' := DoLoad(s, cid);
      s' == s || s'.calls == s.calls - {cid}
      || (cid in s'.calls && s'.calls[cid].stage.Loaded? && s'.calls == s.calls[cid := s'.calls[cid]])
  {}

  lemma LoadDistinct(s: Shop, cid: Id)
    requires Distinct(s)
    ensures Distinct(DoLoad(s, cid))
  {
    var s' := DoLoad(s, cid);
    if s' != s {
      LoadMovesOne(s, cid);
      DistinctAfter(s, s', cid);
    }
  }

  lemma AskBankDistinct(s: Shop, cid: Id, verdict: Option<Verdict>)
    requires Distinct(s)
    ensures Distinct(DoAskBank(s, cid, verdict))
  {
    DistinctAfter(s, DoAskBank(s, cid, verdict), cid);
  }

  /** The other events only take calls out. */
  lemma EndingDistinct(s: Shop, cid: Id, ok: bool, found: Id)
    requires Distinct(s)
    ensures Distinct(DoStartCapture(s, cid, ok)) && Distinct(DoResolve(s, cid, found)) && Distinct(DoDrop(s, cid))
  {}

  lemma {:induction false} StepDistinct(s: Shop, e: Event)
    requires Distinct(s) && Calls(s)
    ensures Distinct(Step(s, e))
  {
    match e
    case Begin(cid, req, found) => BeginDistinct(s, cid, req, found);
    case Insert(cid, txid) => InsertDistinct(s, cid, txid);
    case Mark(cid, now) => MarkDistinct(s, cid, now);
    case Commit(cid) => CommitDistinct(s, cid);
    case Load(cid) => LoadDistinct(s, cid);
    case AskBank(cid, verdict) => AskBankDistinct(s, cid, verdict);
    case StartCapture(cid, ok) => EndingDistinct(s, cid, ok, "");
    case Resolve(cid, found) => EndingDistinct(s, cid, false, found);
    case Drop(cid) => EndingDistinct(s, cid, false, "");
    case _ => OtherIsOutside(s, e);
  }

  // Locks belong to calls that marked their product.

  lemma MarkLocks(s: Shop, cid: Id, now: int)
    requires LocksBacked(s)
    ensures LocksBacked(DoMark(s, cid, now))
  {}

  lemma LocksAfter(s: Shop, s': Shop, cid: Id)
    requires LocksBacked(s)
    requires forall other :: other in s.calls && other != cid ==> other in s'.calls && s'.calls[other] == s.calls[other]
    requires forall pid :: pid in s'.locks ==> pid in s.locks && s'.locks[pid] == s.locks[pid] && s.locks[pid] != cid
    ensures LocksBacked(s')
  {}

  lemma CommitLocks(s: Shop, cid: Id)
    requires LocksBacked(s)
    ensures LocksBacked(DoCommit(s, cid))
  {
    if cid in s.calls && ReadyToCommit(s.calls[cid].stage) { LocksAfter(s, DoCommit(s, cid), cid); }
  }

  lemma DropLocks(s: Shop, cid: Id)
    requires LocksBacked(s)
    ensures LocksBacked(DoDrop(s, cid))
  {
    if cid in s.calls { LocksAfter(s, DoDrop(s, cid), cid); }
  }

  lemma EarlyLocks(s: Shop, cid: Id, req: Request, found: Id, txid: Id)
    requires LocksBacked(s)
    ensures LocksBacked(DoBegin(s, cid, req, found)) && LocksBacked(DoInsert(s, cid, txid))
  {
    InsertLocks(s, cid, txid);
  }

  lemma InsertLocks(s: Shop, cid: Id, txid: Id)
    requires LocksBacked(s)
    ensures LocksBacked(DoInsert(s, cid, txid))
  {}

  lemma LateLocks(s: Shop, cid: Id, ok: bool, found: Id)
    requires LocksBacked(s)
    ensures LocksBacked(DoStartCapture(s, cid, ok)) && LocksBacked(DoResolve(s, cid, found))
  {}

  lemma LoadLocks(s: Shop, cid: Id, verdict: Option<Verdict>)
    requires LocksBacked(s)
    ensures LocksBacked(DoLoad(s, cid)) && LocksBacked(DoAskBank(s, cid, verdict))
  {}

  const NO_REQUEST := Request("", "", "", "", "")

  lemma {:induction false} StepLocks(s: Shop, e: Event)
    requires LocksBacked(s)
    ensures LocksBacked(Step(s, e))
  {
    match e
    case Begin(cid, req, found) => EarlyLocks(s, cid, req, found, "");
    case Insert(cid, txid) => EarlyLocks(s, cid, NO_REQUEST, "", txid);
    case Mark(cid, now) => MarkLocks(s, cid, now);
    case Commit(cid) => CommitLocks(s, cid);
    case Load(cid) => LoadLocks(s, cid, None);
    case AskBank(cid, verdict) => LoadLocks(s, cid, verdict);
    case StartCapture(cid, ok) => LateLocks(s, cid, ok, "");
    case Resolve(cid, found) => LateLocks(s, cid, false, found);
    case Drop(cid) => DropLocks(s, cid);
    case _ => OtherIsOutside(s, e);
  }

  lemma {:induction false} StepCalls(s: Shop, e: Event)
    requires Sound(s)
    ensures Calls(Step(s, e))
  {
    match e
    case Begin(cid, req, found) => BeginCalls(s, cid, req, found);
    case Insert(cid, txid) => InsertCalls(s, cid, txid);
    case Mark(cid, now) => MarkCalls(s, cid, now);
    case Commit(cid) => CommitCalls(s, cid);
    case Load(cid) => LoadCalls(s, cid);
    case AskBank(cid, verdict) => AskBankCalls(s, cid, verdict);
    case StartCapture(cid, ok) => StartCaptureCalls(s, cid, ok);
    case Resolve(cid, found) => ResolveCalls(s, cid, found);
    case Drop(cid) => DropCalls(s, cid);
    case _ => OtherIsOutside(s, e); OutsideCalls(s, Step(s, e));
  }

  lemma CaptureStored(s: Shop, cid: Id, ok: bool)
    requires CapturesStored(s) && Calls(s)
    ensures CapturesStored(DoStartCapture(s, cid, ok))
  {
    if cid in s.calls { assert CallOk(s, cid, s.calls[cid]); }
  }

  lemma OnlyCapturesCapture(s: Shop, e: Event)
    requires !e.StartCapture?
    ensures Step(s, e).captures == s.captures
  {
    if IsCall(e) {
      match e
      case Begin(cid, req, found) => BeginTables(s, cid, req, found);
      case Insert(cid, txid) => InsertTables(s, cid, txid);
      case Mark(cid, now) => MarkTables(s, cid, now);
      case Resolve(cid, found) => ResolveTables(s, cid, found);
      case _ =>
    } else {
      OtherIsOutside(s, e);
    }
  }

  lemma StepCaptures(s: Shop, e: Event)
    requires CapturesStored(s) && Calls(s)
    ensures CapturesStored(Step(s, e))
  {
    StepEvolves(s, e);
    if e.StartCapture? { CaptureStored(s, e.cid, e.ok); } else { OnlyCapturesCapture(s, e); }
  }

  lemma StepSound(s: Shop, e: Event)
    requires Sound(s)
    ensures Sound(Step(s, e))
  {
    StepCalls(s, e);
    StepDistinct(s, e);
    StepLocks(s, e);
    StepCaptures(s, e);
  }

  lemma {:induction false} RunsSound(es: seq<Event>)
    ensures Sound(Run(INIT, es))
  {
    if es != [] {
      RunsSound(es[..|es| - 1]);
      StepSound(Run(INIT, es[..|es| - 1]), es[|es| - 1]);
    }
  }

  // A call moves only by its own events.

  /** The call is in both shops or in neither, and the same. */
  predicate SameCall(s: Shop, s': Shop, cid: Id) {
    (cid in s.calls <==> cid in s'.calls) && (cid in s.calls ==> s'.calls[cid] == s.calls[cid])
  }

  lemma {:induction false} OtherCallsStay(s: Shop, e: Event, cid: Id)
    requires IsCall(e) && e.cid != cid
    ensures SameCall(s, Step(s, e), cid)
  {
    match e
    case Begin(other, req, found) => BeginStays(s, other, req, found, cid);
    case Load(other) => LoadStays(s, other, cid);
    case AskBank(other, verdict) => AskBankStays(s, other, verdict, cid);
    case Insert(other, txid) => InsertStays(s, other, txid, cid);
    case Mark(other, now) => MarkStays(s, other, now, cid);
    case Commit(other) => CommitStays(s, other, cid);
    case StartCapture(other, ok) => EndingStays(s, other, ok, cid);
    case Resolve(other, found) => ResolveStays(s, other, found, cid);
    case Drop(other) => EndingStays(s, other, false, cid);
  }

  lemma LoadStays(s: Shop, other: Id, cid: Id)
    requires other != cid
    ensures SameCall(s, DoLoad(s, other), cid)
  {}

  lemma AskBankStays(s: Shop, other: Id, verdict: Option<Verdict>, cid: Id)
    requires other != cid
    ensures SameCall(s, DoAskBank(s, other, verdict), cid)
  {}

  lemma InsertStays(s: Shop, other: Id, txid: Id, cid: Id)
    requires other != cid
    ensures SameCall(s, DoInsert(s, other, txid), cid)
  {}

  lemma EndingStays(s: Shop, other: Id, ok: bool, cid: Id)
    requires other != cid
    ensures SameCall(s, DoStartCapture(s, other, ok), cid) && SameCall(s, DoDrop(s, other), cid)
  {}

  lemma ResolveStays(s: Shop, other: Id, found: Id, cid: Id)
    requires other != cid
    ensures SameCall(s, DoResolve(s, other, found), cid)
  {}

  lemma BeginStays(s: Shop, other: Id, req: Request, found: Id, cid: Id)
    requires other != cid
    ensures SameCall(s, DoBegin(s, other, req, found), cid)
  {}

  lemma MarkStays(s: Shop, other: Id, now: int, cid: Id)
    requires other != cid
    ensures SameCall(s, DoMark(s, other, now), cid)
  {}

  lemma CommitStays(s: Shop, other: Id, cid: Id)
    requires other != cid
    ensures SameCall(s, DoCommit(s, other), cid)
  {}

  lemma OthersLeaveCall(s: Shop, e: Event, cid: Id)
    requires IsCall(e) ==> e.cid != cid
    ensures SameCall(s, Step(s, e), cid)
  {
    if IsCall(e) { OtherCallsStay(s, e, cid); } else { OtherIsOutside(s, e); }
  }
}
