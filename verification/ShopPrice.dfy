/** Which price a purchase charges: it is sure to be the product's final price exactly when that was final
    already when the product was read (or the purchase cannot be stored at all). */
module ShopPrice {
  import opened Base
  import opened Transactions
  import opened Catalog
  import opened Shop
  import opened ShopProofs
  import opened ShopTheorems
  import opened ShopCatalog
  import opened ShopEdits

  /** The call `cid` under way is not replaced by a new one. */
  predicate NoRestart(more: seq<Event>, cid: Id) {
    forall e :: e in more && e.Begin? ==> e.cid != cid
  }

  predicate IsLoaded(s: Shop, cid: Id) {
    cid in s.calls && s.calls[cid].stage.Loaded?
  }

  // A call charges what it read.

  /** The call is, or was, at these loaded terms. */
  predicate Carries(st: Stage, price: int, currency: string) {
    match st
    case Checked => false
    case Loaded(p, c, _) => p == price && c == currency
    case Decided(row, _) => row.amount == price && row.currency == currency
    case Inserted(_, row, _) => row.amount == price && row.currency == currency
    case Marked(_, row, _, _) => row.amount == price && row.currency == currency
    case Stored(_, row) => row.amount == price && row.currency == currency
    case Racing => true
  }

  predicate CarriesOn(s: Shop, cid: Id, req: Request, price: int, currency: string) {
    cid in s.calls ==> s.calls[cid].req == req && Carries(s.calls[cid].stage, price, currency)
  }

  lemma InsertCarries(s: Shop, cid: Id, txid: Id, req: Request, price: int, currency: string)
    requires CarriesOn(s, cid, req, price, currency)
    ensures CarriesOn(DoInsert(s, cid, txid), cid, req, price, currency)
  {}

  lemma MarkCarries(s: Shop, cid: Id, now: int, req: Request, price: int, currency: string)
    requires CarriesOn(s, cid, req, price, currency)
    ensures CarriesOn(DoMark(s, cid, now), cid, req, price, currency)
  {}

  lemma {:induction false} OwnStepCarries(s: Shop, e: Event, cid: Id, req: Request, price: int, currency: string)
    requires IsCall(e) && !e.Begin? && e.cid == cid && CarriesOn(s, cid, req, price, currency)
    ensures CarriesOn(Step(s, e), cid, req, price, currency)
  {
    match e
    case Load(_) =>
    case AskBank(_, _) =>
    case Insert(_, txid) => InsertCarries(s, cid, txid, req, price, currency);
    case Mark(_, now) => MarkCarries(s, cid, now, req, price, currency);
    case Commit(_) =>
    case StartCapture(_, _) =>
    case Resolve(_, _) =>
    case Drop(_) =>
  }

  lemma StepCarries(s: Shop, e: Event, cid: Id, req: Request, price: int, currency: string)
    requires CarriesOn(s, cid, req, price, currency) && (e.Begin? ==> e.cid != cid)
    ensures CarriesOn(Step(s, e), cid, req, price, currency)
  {
    if IsCall(e) && e.cid == cid {
      OwnStepCarries(s, e, cid, req, price, currency);
    } else {
      OthersLeaveCall(s, e, cid);
    }
  }

  /** Whatever happens in between, a call charges the price and currency it read. */
  lemma {:induction false} ChargesWhatItRead(es: seq<Event>, more: seq<Event>, cid: Id)
    requires IsLoaded(Run(INIT, es), cid) && NoRestart(more, cid)
    ensures var c := Run(INIT, es).calls[cid];
      CarriesOn(Run(INIT, es + more), cid, c.req, c.stage.price, c.stage.currency)
  {
    var c := Run(INIT, es).calls[cid];
    if more == [] {
      assert es + more == es;
    } else {
      var most, e := more[..|more| - 1], more[|more| - 1];
      assert (es + more)[..|es + more| - 1] == es + most && e in more;
      ChargesWhatItRead(es, most, cid);
      StepCarries(Run(INIT, es + most), e, cid, c.req, c.stage.price, c.stage.currency);
    }
  }

  lemma {:induction false} PriceAtLockStays(es: seq<Event>, later: seq<Event>, cid: Id)
    requires cid in Run(INIT, es).calls && Run(INIT, es).calls[cid].stage.Marked?
    ensures
      var locked, after := Run(INIT, es), Run(INIT, es + [Commit(cid)] + later);
      var st, pid := locked.calls[cid].stage, locked.calls[cid].req.productId;
      && st.txid in after.txs && SamePurchase(st.row, after.txs[st.txid])
      && pid in locked.products
      && FinalPrice(after.products, pid, locked.products[pid].price, locked.products[pid].currency)
  {
    ShopProofs.RunsSound(es);
    RunOne(es, Commit(cid));
    CommitStampsAndStores(Run(INIT, es), cid);
    TxsKeep(es + [Commit(cid)], later);
    FrozenForever(es + [Commit(cid)], later);
  }

  /** The price at the row lock is the price for good: what the call charges is the final price exactly when
      price and currency at the lock are still those it read. */
  lemma {:induction false} ChargeIsFinalIff(es: seq<Event>, more: seq<Event>, later: seq<Event>, cid: Id)
    requires IsLoaded(Run(INIT, es), cid) && NoRestart(more, cid)
    requires cid in Run(INIT, es + more).calls && Run(INIT, es + more).calls[cid].stage.Marked?
    ensures
      var loaded, locked := Run(INIT, es).calls[cid], Run(INIT, es + more);
      var after := Run(INIT, es + more + [Commit(cid)] + later);
      var pid, txid := loaded.req.productId, locked.calls[cid].stage.txid;
      && txid in after.txs && after.txs[txid].amount == loaded.stage.price
      && after.txs[txid].currency == loaded.stage.currency
      && pid in locked.products
      && (FinalPrice(after.products, pid, after.txs[txid].amount, after.txs[txid].currency) <==>
            locked.products[pid].price == loaded.stage.price && locked.products[pid].currency == loaded.stage.currency)
  {
    ChargesWhatItRead(es, more, cid);
    PriceAtLockStays(es + more, later, cid);
  }

  lemma CommitStampsAndStores(s: Shop, cid: Id)
    requires Calls(s) && cid in s.calls && s.calls[cid].stage.Marked?
    ensures var s', st, pid := DoCommit(s, cid), s.calls[cid].stage, s.calls[cid].req.productId;
      && st.txid in s'.txs && s'.txs[st.txid] == st.row
      && pid in s.products && pid in s'.products && s'.products[pid].firstPurchasedAt.Some?
      && s'.products[pid].price == s.products[pid].price && s'.products[pid].currency == s.products[pid].currency
  {
    assert CallOk(s, cid, s.calls[cid]);
  }

  lemma {:induction false} TxsKeep(es: seq<Event>, more: seq<Event>)
    ensures TxsEvolve(Run(INIT, es).txs, Run(INIT, es + more).txs)
  {
    if more == [] {
      assert es + more == es;
    } else {
      var most := es + more[..|more| - 1];
      assert (es + more)[..|es + more| - 1] == most;
      TxsKeep(es, more[..|more| - 1]);
      ShopProofs.RunsSound(most);
      StepEvolves(Run(INIT, most), more[|more| - 1]);
      TxsChain(Run(INIT, es).txs, Run(INIT, most).txs, Run(INIT, es + more).txs);
    }
  }

  lemma TxsChain(a: map<Id, Transaction>, b: map<Id, Transaction>, c: map<Id, Transaction>)
    requires TxsEvolve(a, b) && TxsEvolve(b, c)
    ensures TxsEvolve(a, c)
  {}

  // A call that cannot be stored any more.

  /** The key is taken, and the call has not got its own row in. */
  predicate ShutOut(s: Shop, cid: Id, req: Request) {
    && PurchaseKeyUsed(s.txs, req.merchantId, req.key)
    && (cid in s.calls ==>
          var c := s.calls[cid]; c.req == req && (c.stage.Loaded? || c.stage.Decided? || c.stage.Racing?))
  }

  lemma OwnStepShutsOut(s: Shop, e: Event, cid: Id, req: Request)
    requires ShutOut(s, cid, req) && Calls(s) && IsCall(e) && !e.Begin? && e.cid == cid
    ensures cid in Step(s, e).calls ==>
      var c := Step(s, e).calls[cid]; c.req == req && (c.stage.Loaded? || c.stage.Decided? || c.stage.Racing?)
  {
    if cid in s.calls { assert CallOk(s, cid, s.calls[cid]); }
    match e
    case Load(_) =>
    case AskBank(_, _) =>
    case Insert(_, _) =>
    case Mark(_, _) =>
    case Commit(_) =>
    case StartCapture(_, _) =>
    case Resolve(_, _) =>
    case Drop(_) =>
  }

  lemma StepShutsOut(s: Shop, e: Event, cid: Id, req: Request)
    requires ShutOut(s, cid, req) && Calls(s) && (e.Begin? ==> e.cid != cid)
    ensures ShutOut(Step(s, e), cid, req)
  {
    StepEvolves(s, e);
    KeyStaysUsed(s.txs, Step(s, e).txs, req.merchantId, req.key);
    if IsCall(e) && e.cid == cid { OwnStepShutsOut(s, e, cid, req); } else { OthersLeaveCall(s, e, cid); }
  }

  lemma {:induction false} StaysShutOut(es: seq<Event>, more: seq<Event>, cid: Id)
    requires IsLoaded(Run(INIT, es), cid) && NoRestart(more, cid)
    requires var req := Run(INIT, es).calls[cid].req; PurchaseKeyUsed(Run(INIT, es).txs, req.merchantId, req.key)
    ensures ShutOut(Run(INIT, es + more), cid, Run(INIT, es).calls[cid].req)
  {
    if more == [] {
      assert es + more == es;
    } else {
      var most, e := more[..|more| - 1], more[|more| - 1];
      assert (es + more)[..|es + more| - 1] == es + most && e in more;
      StaysShutOut(es, most, cid);
      ShopProofs.RunsSound(es + most);
      StepShutsOut(Run(INIT, es + most), e, cid, Run(INIT, es).calls[cid].req);
    }
  }

  // A call whose price is not final can be made to charge another one.

  predicate ProductsChecked(products: map<Id, Product>) {
    forall id :: id in products ==> CheckOk(products[id])
  }

  lemma WriteChecks(s: Shop, eid: Id)
    requires ProductsChecked(s.products)
    ensures ProductsChecked(DoWriteEdit(s, eid).products)
  {
    if eid in s.edits && !s.edits[eid].missed && s.edits[eid].id !in s.locks {
      var e := s.edits[eid];
      match GuardedWrite(s.products, e.merchantId, e.id, e.update)
      case Hit(row) => assert CheckOk(row);
      case _ =>
    }
  }

  lemma {:induction false} OtherStepChecks(s: Shop, e: Event)
    requires ProductsChecked(s.products) && !IsCall(e)
    ensures ProductsChecked(Step(s, e).products)
  {
    match e
    case WriteEdit(eid) => WriteChecks(s, eid);
    case ReadEdit(eid, merchant, id, req) => ReadsLeaveTables(s, eid, merchant, id, req);
    case ExplainEdit(eid) =>
    case SetArchived(_, _, _) =>
    case MarkAlone(_, _, _) =>
    case CreateProduct(_, _) =>
    case MoveOn(_, _) =>
    case AuthorizeOnly(_, _) =>
  }

  lemma {:induction false} RunsCheck(es: seq<Event>)
    ensures ProductsChecked(Run(INIT, es).products)
  {
    if es != [] {
      var s, e := Run(INIT, es[..|es| - 1]), es[|es| - 1];
      RunsCheck(es[..|es| - 1]);
      if e.Commit? {
        if e.cid in s.calls && ReadyToCommit(s.calls[e.cid].stage) {
          assert ProductsChecked(Committed(s, e.cid).products);
        }
      } else if IsCall(e) {
        CallTables(s, e);
      } else {
        OtherStepChecks(s, e);
      }
    }
  }

  /** `es'` goes on from `es` without starting the call anew. */
  predicate GoesOn(es: seq<Event>, es': seq<Event>, cid: Id) {
    es <= es' && NoRestart(es'[|es|..], cid)
  }

  lemma GoesOnChains(a: seq<Event>, b: seq<Event>, c: seq<Event>, cid: Id)
    requires GoesOn(a, b, cid) && GoesOn(b, c, cid)
    ensures GoesOn(a, c, cid)
  {
    assert c[|a|..] == b[|a|..] + c[|b|..];
  }

  lemma {:induction false} Next(es: seq<Event>, e: Event, cid: Id) returns (es': seq<Event>)
    requires e.Begin? ==> e.cid != cid
    ensures GoesOn(es, es', cid) && Run(INIT, es') == Step(Run(INIT, es), e)
  {
    es' := es + [e];
    RunOne(es, e);
  }

  /** The call is waiting with these terms, and its key is free. */
  predicate MayBuy(s: Shop, cid: Id, req: Request, price: int, currency: string) {
    && IsLoaded(s, cid) && s.calls[cid].req == req
    && s.calls[cid].stage.price == price && s.calls[cid].stage.currency == currency
    && !PurchaseKeyUsed(s.txs, req.merchantId, req.key)
  }

  predicate Unobstructed(s: Shop, req: Request) {
    !KeyInFlight(s, req.merchantId, req.key) && req.productId !in s.locks
  }

  /** Another call gives up. */
  lemma DropOther(s: Shop, other: Id, cid: Id, req: Request, price: int, currency: string)
    requires other in s.calls && other != cid && MayBuy(s, cid, req, price, currency)
    ensures var s' := DoDrop(s, other);
      && s'.products == s.products && s'.calls == s.calls - {other} && s'.locks == Released(s, other).locks
      && MayBuy(s', cid, req, price, currency)
  {}

  lemma {:induction false} KeysApart(es: seq<Event>)
    ensures Distinct(Run(INIT, es))
  {
    ShopProofs.RunsSound(es);
  }

  lemma OnlyOneInFlight(s: Shop, s': Shop, other: Id, req: Request)
    requires Distinct(s) && other in s.calls && InFlight(s.calls[other])
    requires HasPurchaseKey(s.calls[other].stage.row, req.merchantId, req.key)
    requires s'.calls == s.calls - {other}
    ensures !KeyInFlight(s', req.merchantId, req.key)
  {
    forall o | o in s.calls && o != other && InFlight(s.calls[o])
      ensures !HasPurchaseKey(s.calls[o].stage.row, req.merchantId, req.key)
    {
      assert Apart(s.calls[o], s.calls[other]);
    }
  }

  /** Another call that has the key in flight gives up. */
  lemma {:induction false} ClearKey(es: seq<Event>, cid: Id, req: Request, price: int, currency: string)
    returns (es': seq<Event>)
    requires MayBuy(Run(INIT, es), cid, req, price, currency)
    ensures GoesOn(es, es', cid) && MayBuy(Run(INIT, es'), cid, req, price, currency)
    ensures !KeyInFlight(Run(INIT, es'), req.merchantId, req.key) && Run(INIT, es').products == Run(INIT, es).products
  {
    es' := es;
    var s := Run(INIT, es);
    if KeyInFlight(s, req.merchantId, req.key) {
      var other :| other in s.calls && InFlight(s.calls[other])
          && HasPurchaseKey(s.calls[other].stage.row, req.merchantId, req.key);
      DropOther(s, other, cid, req, price, currency);
      KeysApart(es);
      OnlyOneInFlight(s, DoDrop(s, other), other, req);
      es' := Next(es, Drop(other), cid);
    }
  }

  lemma {:induction false} HolderReleases(es: seq<Event>, pid: Id)
    requires pid in Run(INIT, es).locks
    ensures var s := Run(INIT, es); var holder := s.locks[pid];
      holder in s.calls && s.calls[holder].stage.Marked? && pid !in Released(s, holder).locks
  {
    ShopProofs.RunsSound(es);
  }

  /** Another call that holds the product's row lock gives up. */
  lemma {:induction false} ClearLock(es: seq<Event>, cid: Id, req: Request, price: int, currency: string)
    returns (es': seq<Event>)
    requires MayBuy(Run(INIT, es), cid, req, price, currency) && !KeyInFlight(Run(INIT, es), req.merchantId, req.key)
    ensures GoesOn(es, es', cid) && MayBuy(Run(INIT, es'), cid, req, price, currency)
    ensures Unobstructed(Run(INIT, es'), req) && Run(INIT, es').products == Run(INIT, es).products
  {
    es' := es;
    var s := Run(INIT, es);
    if req.productId in s.locks {
      var other := s.locks[req.productId];
      HolderReleases(es, req.productId);
      DropOther(s, other, cid, req, price, currency);
      es' := Next(es, Drop(other), cid);
    }
  }

  // The merchant raises the price.

  /** What the product sells for now is not what the call will charge. */
  predicate Differs(s: Shop, pid: Id, price: int, currency: string) {
    pid in s.products && !(s.products[pid].price == price && s.products[pid].currency == currency)
  }

  /** The merchant's active product, never purchased, at this price. */
  predicate OnSale(s: Shop, req: Request, price: int) {
    && Owned(s.products, req.merchantId, req.productId)
    && var p := s.products[req.productId]; !p.archived && p.firstPurchasedAt.None? && p.price == price
  }

  function Raise(price: int): UpdateRequest {
    UpdateRequest(None, None, None, Some(price + 1), None)
  }

  function Raised(price: int): Update {
    Update(None, Some(LockedAfterPurchase(None, Some(price + 1), None)))
  }

  predicate Raising(s: Shop, eid: Id, req: Request, price: int) {
    && eid in s.edits && s.edits[eid].merchantId == req.merchantId && s.edits[eid].id == req.productId
    && !s.edits[eid].missed && s.edits[eid].update == Raised(price)
  }

  lemma RaiseReads(s: Shop, eid: Id, req: Request, price: int)
    requires OnSale(s, req, price) && eid !in s.edits
    ensures var s' := DoReadEdit(s, eid, req.merchantId, req.productId, Raise(price));
      Raising(s', eid, req, price) && s' == s.(edits := s'.edits)
  {
    assert NewUpdate(Raise(price), s.products[req.productId]) == Ok(Raised(price));
  }

  lemma RaiseWrites(s: Shop, eid: Id, req: Request, price: int)
    requires OnSale(s, req, price) && Raising(s, eid, req, price) && req.productId !in s.locks
    requires ProductsChecked(s.products) && SlugsUnique(s.products)
    ensures var s' := DoWriteEdit(s, eid);
      && s'.products == s.products[req.productId := s.products[req.productId].(price := price + 1)]
      && s'.calls == s.calls && s'.txs == s.txs && s'.locks == s.locks
  {
    var p, id := s.products[req.productId], req.productId;
    var row := p.(price := price + 1);
    assert CheckOk(p);
    assert Apply(p, Raised(price)) == row;
    assert !SlugTaken(s.products, id, row) by {
      forall other | other in s.products && other != id ensures !SlugClash(s.products[other], row) {
        assert !SlugClash(s.products[other], p);
      }
    }
    assert GuardedWrite(s.products, req.merchantId, id, Raised(price)) == Hit(row);
  }

  lemma {:induction false} Unarchive(es: seq<Event>, cid: Id, req: Request, price: int, currency: string)
    returns (es': seq<Event>)
    requires MayBuy(Run(INIT, es), cid, req, price, currency) && Unobstructed(Run(INIT, es), req)
    requires Owned(Run(INIT, es).products, req.merchantId, req.productId)
    requires var p := Run(INIT, es).products[req.productId]; p.firstPurchasedAt.None? && p.price == price
    ensures GoesOn(es, es', cid) && MayBuy(Run(INIT, es'), cid, req, price, currency)
    ensures Unobstructed(Run(INIT, es'), req) && OnSale(Run(INIT, es'), req, price)
  {
    es' := Next(es, SetArchived(req.merchantId, req.productId, false), cid);
  }

  lemma {:induction false} StartRaise(es: seq<Event>, cid: Id, req: Request, price: int, currency: string)
    returns (es': seq<Event>, eid: Id)
    requires MayBuy(Run(INIT, es), cid, req, price, currency) && Unobstructed(Run(INIT, es), req)
    requires OnSale(Run(INIT, es), req, price)
    ensures GoesOn(es, es', cid) && MayBuy(Run(INIT, es'), cid, req, price, currency)
    ensures Unobstructed(Run(INIT, es'), req) && OnSale(Run(INIT, es'), req, price)
    ensures Raising(Run(INIT, es'), eid, req, price)
  {
    eid := FreshString(Run(INIT, es).edits.Keys);
    RaiseReads(Run(INIT, es), eid, req, price);
    es' := Next(es, ReadEdit(eid, req.merchantId, req.productId, Raise(price)), cid);
  }

  lemma {:induction false} FinishRaise(es: seq<Event>, eid: Id, cid: Id, req: Request, price: int, currency: string)
    returns (es': seq<Event>)
    requires MayBuy(Run(INIT, es), cid, req, price, currency) && Unobstructed(Run(INIT, es), req)
    requires OnSale(Run(INIT, es), req, price) && Raising(Run(INIT, es), eid, req, price)
    ensures GoesOn(es, es', cid) && MayBuy(Run(INIT, es'), cid, req, price, currency)
    ensures Unobstructed(Run(INIT, es'), req) && Differs(Run(INIT, es'), req.productId, price, currency)
  {
    RunsCheck(es);
    SlugsStayUnique(es);
    RaiseWrites(Run(INIT, es), eid, req, price);
    es' := Next(es, WriteEdit(eid), cid);
  }

  lemma {:induction false} Backed(es: seq<Event>, cid: Id)
    requires IsLoaded(Run(INIT, es), cid)
    ensures var s := Run(INIT, es); var req := s.calls[cid].req;
      req.key != "" && Owned(s.products, req.merchantId, req.productId)
  {
    ShopProofs.RunsSound(es);
    assert CallOk(Run(INIT, es), cid, Run(INIT, es).calls[cid]);
  }

  /** The merchant makes sure the product is active, and raises its price. */
  lemma {:induction false} Reprice(es: seq<Event>, cid: Id, req: Request, price: int, currency: string)
    returns (es': seq<Event>)
    requires MayBuy(Run(INIT, es), cid, req, price, currency) && Unobstructed(Run(INIT, es), req)
    requires !FinalPrice(Run(INIT, es).products, req.productId, price, currency)
    ensures GoesOn(es, es', cid) && MayBuy(Run(INIT, es'), cid, req, price, currency)
    ensures Unobstructed(Run(INIT, es'), req) && Differs(Run(INIT, es'), req.productId, price, currency)
  {
    Backed(es, cid);
    if Differs(Run(INIT, es), req.productId, price, currency) {
      es' := es;
    } else {
      var a := Unarchive(es, cid, req, price, currency);
      var b, eid := StartRaise(a, cid, req, price, currency);
      es' := FinishRaise(b, eid, cid, req, price, currency);
      GoesOnChains(es, a, b, cid);
      GoesOnChains(es, b, es', cid);
    }
  }

  // The purchase goes through, statement by statement.

  /** The call is at stage `st` with approved terms that differ from the product's. */
  predicate Astray(s: Shop, cid: Id, req: Request, st: Stage, row: Transaction) {
    && cid in s.calls && s.calls[cid] == Call(req, st)
    && Owned(s.products, req.merchantId, req.productId) && Differs(s, req.productId, row.amount, row.currency)
    && row.status == Authorized && row.merchantId == req.merchantId && row.purchaseKey == req.key
  }

  lemma {:induction false} BankApproves(es: seq<Event>, cid: Id, req: Request, price: int, currency: string)
    returns (es': seq<Event>, row: Transaction, priced: bool)
    requires MayBuy(Run(INIT, es), cid, req, price, currency) && Unobstructed(Run(INIT, es), req)
    requires Differs(Run(INIT, es), req.productId, price, currency)
    ensures GoesOn(es, es', cid) && Astray(Run(INIT, es'), cid, req, Decided(row, priced), row)
    ensures Unobstructed(Run(INIT, es'), req) && !PurchaseKeyUsed(Run(INIT, es').txs, req.merchantId, req.key)
  {
    Backed(es, cid);
    row, priced := NewTransaction(AuthFor(req, price, currency), Approve), Run(INIT, es).calls[cid].stage.priced;
    Asked(Run(INIT, es), cid, req, price, currency);
    es' := Next(es, AskBank(cid, Some(Approve)), cid);
  }

  lemma Asked(s: Shop, cid: Id, req: Request, price: int, currency: string)
    requires MayBuy(s, cid, req, price, currency) && !KeyInFlight(s, req.merchantId, req.key)
    ensures var s' := DoAskBank(s, cid, Some(Approve));
      var row := NewTransaction(AuthFor(req, price, currency), Approve);
      && s' == s.(calls := s.calls[cid := Call(req, Decided(row, s.calls[cid].stage.priced))])
      && !KeyInFlight(s', req.merchantId, req.key)
  {
    var s' := DoAskBank(s, cid, Some(Approve));
    forall o | o in s'.calls && InFlight(s'.calls[o])
      ensures !HasPurchaseKey(s'.calls[o].stage.row, req.merchantId, req.key)
    {
      assert o != cid && s'.calls[o] == s.calls[o];
    }
  }

  lemma FreshTxid(s: Shop) returns (txid: Id)
    ensures txid !in s.txs && !IdInFlight(s, txid)
  {
    var used := s.txs.Keys + set c | c in s.calls && InFlight(s.calls[c]) :: s.calls[c].stage.txid;
    txid := FreshString(used);
    forall c | c in s.calls && InFlight(s.calls[c]) ensures s.calls[c].stage.txid in used {}
  }

  lemma {:induction false} GoesIn(es: seq<Event>, cid: Id, req: Request, row: Transaction, priced: bool)
    returns (es': seq<Event>, txid: Id)
    requires Astray(Run(INIT, es), cid, req, Decided(row, priced), row)
    requires Unobstructed(Run(INIT, es), req) && !PurchaseKeyUsed(Run(INIT, es).txs, req.merchantId, req.key)
    ensures GoesOn(es, es', cid) && Astray(Run(INIT, es'), cid, req, Inserted(txid, row, priced), row)
    ensures req.productId !in Run(INIT, es').locks
  {
    txid := FreshTxid(Run(INIT, es));
    es' := Next(es, Insert(cid, txid), cid);
  }

  lemma {:induction false} Locks(es: seq<Event>, cid: Id, req: Request, txid: Id, row: Transaction, priced: bool)
    returns (es': seq<Event>, at: Option<int>)
    requires Astray(Run(INIT, es), cid, req, Inserted(txid, row, priced), row) && req.productId !in Run(INIT, es).locks
    ensures GoesOn(es, es', cid) && Astray(Run(INIT, es'), cid, req, Marked(txid, row, priced, at), row)
  {
    LockDecides(Run(INIT, es), cid, req, txid, row, priced);
    es' := Next(es, Mark(cid, 0), cid);
    at := Run(INIT, es').calls[cid].stage.at;
  }

  lemma LockDecides(s: Shop, cid: Id, req: Request, txid: Id, row: Transaction, priced: bool)
    requires Astray(s, cid, req, Inserted(txid, row, priced), row) && req.productId !in s.locks
    ensures var s' := DoMark(s, cid, 0);
      cid in s'.calls && s'.calls[cid].stage.Marked?
      && Astray(s', cid, req, Marked(txid, row, priced, s'.calls[cid].stage.at), row)
  {}

  lemma {:induction false} GoesThrough(
      es: seq<Event>, cid: Id, req: Request, txid: Id, row: Transaction, priced: bool, at: Option<int>)
    returns (es': seq<Event>)
    requires Astray(Run(INIT, es), cid, req, Marked(txid, row, priced, at), row)
    ensures GoesOn(es, es', cid) && StoresWrongPrice(Run(INIT, es'), cid)
  {
    es' := Next(es, Commit(cid), cid);
  }

  /** The bank approves, and nothing holds the purchase up. */
  lemma {:induction false} Buy(es: seq<Event>, cid: Id, req: Request, price: int, currency: string)
    returns (es': seq<Event>)
    requires MayBuy(Run(INIT, es), cid, req, price, currency) && Unobstructed(Run(INIT, es), req)
    requires Differs(Run(INIT, es), req.productId, price, currency)
    ensures GoesOn(es, es', cid) && StoresWrongPrice(Run(INIT, es'), cid)
  {
    var a, row, priced := BankApproves(es, cid, req, price, currency);
    var b, txid := GoesIn(a, cid, req, row, priced);
    var c, at := Locks(b, cid, req, txid, row, priced);
    es' := GoesThrough(c, cid, req, txid, row, priced, at);
    GoesOnChains(es, a, b, cid);
    GoesOnChains(es, b, c, cid);
    GoesOnChains(es, c, es', cid);
  }

  /** The call has committed an approved purchase that does not charge the product's final price. */
  predicate StoresWrongPrice(s: Shop, cid: Id) {
    && cid in s.calls && s.calls[cid].stage.Stored?
    && var c := s.calls[cid]; !FinalPrice(s.products, c.req.productId, c.stage.row.amount, c.stage.row.currency)
  }

  /** While the price is not final and the key is free, the purchase can still be made to charge a price that is not
      the product's final one: whoever is in the way gives up, the merchant raises the price, and the call completes. */
  lemma {:induction false} CanMischarge(es: seq<Event>, cid: Id, req: Request, price: int, currency: string)
    returns (es': seq<Event>)
    requires MayBuy(Run(INIT, es), cid, req, price, currency)
    requires !FinalPrice(Run(INIT, es).products, req.productId, price, currency)
    ensures GoesOn(es, es', cid) && StoresWrongPrice(Run(INIT, es'), cid)
  {
    var a := ClearKey(es, cid, req, price, currency);
    var b := ClearLock(a, cid, req, price, currency);
    var c := Reprice(b, cid, req, price, currency);
    es' := Buy(c, cid, req, price, currency);
    GoesOnChains(es, a, b, cid);
    GoesOnChains(es, b, c, cid);
    GoesOnChains(es, c, es', cid);
  }

  /** No continuation of the call commits an approved purchase at another price than the product's final one. */
  ghost predicate AlwaysChargesFinal(es: seq<Event>, cid: Id) {
    forall more :: NoRestart(more, cid) ==> !StoresWrongPrice(Run(INIT, es + more), cid)
  }

  lemma {:induction false} FinalIsCharged(es: seq<Event>, more: seq<Event>, cid: Id)
    requires IsLoaded(Run(INIT, es), cid) && NoRestart(more, cid)
    requires var c := Run(INIT, es).calls[cid];
      FinalPrice(Run(INIT, es).products, c.req.productId, c.stage.price, c.stage.currency)
    ensures !StoresWrongPrice(Run(INIT, es + more), cid)
  {
    ChargesWhatItRead(es, more, cid);
    FrozenForever(es, more);
  }

  /** In every reachable state, whether other clients act or not: a purchase that has read its product is sure to charge
      the final price if and only if that price is final by now, or its key is taken and it will never be stored. */
  lemma {:induction false} ChargesFinalPriceIff(es: seq<Event>, cid: Id)
    requires IsLoaded(Run(INIT, es), cid)
    ensures var s := Run(INIT, es); var c := s.calls[cid];
      AlwaysChargesFinal(es, cid) <==>
        FinalPrice(s.products, c.req.productId, c.stage.price, c.stage.currency)
        || PurchaseKeyUsed(s.txs, c.req.merchantId, c.req.key)
  {
    var s := Run(INIT, es);
    var c := s.calls[cid];
    if FinalPrice(s.products, c.req.productId, c.stage.price, c.stage.currency) {
      forall more | NoRestart(more, cid)
        ensures !StoresWrongPrice(Run(INIT, es + more), cid)
      {
        FinalIsCharged(es, more, cid);
      }
    } else if PurchaseKeyUsed(s.txs, c.req.merchantId, c.req.key) {
      forall more | NoRestart(more, cid)
        ensures !StoresWrongPrice(Run(INIT, es + more), cid)
      {
        StaysShutOut(es, more, cid);
      }
    } else {
      var es' := CanMischarge(es, cid, c.req, c.stage.price, c.stage.currency);
      assert es' == es + es'[|es|..];
    }
  }

  lemma LoadReads(s: Shop, cid: Id)
    requires cid in s.calls && s.calls[cid].stage.Checked? && IsLoaded(DoLoad(s, cid), cid)
    ensures var s' := DoLoad(s, cid); var c := s'.calls[cid];
      c.stage.priced <==> FinalPrice(s'.products, c.req.productId, c.stage.price, c.stage.currency)
  {}

  /** At the moment of the read that is: if and only if the product had been purchased before. */
  lemma {:induction false} ReadPriceIsFinalIff(es: seq<Event>, cid: Id)
    requires cid in Run(INIT, es).calls && Run(INIT, es).calls[cid].stage.Checked?
    requires IsLoaded(Run(INIT, es + [Load(cid)]), cid)
    ensures var s := Run(INIT, es + [Load(cid)]); var c := s.calls[cid];
      AlwaysChargesFinal(es + [Load(cid)], cid) <==>
        c.stage.priced || PurchaseKeyUsed(s.txs, c.req.merchantId, c.req.key)
  {
    RunOne(es, Load(cid));
    LoadReads(Run(INIT, es), cid);
    ChargesFinalPriceIff(es + [Load(cid)], cid);
  }
}
