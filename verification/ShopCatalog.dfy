/** Guarantees about products in every interleaving of purchases and edits. */
module ShopCatalog {
  import opened Base
  import opened Transactions
  import opened Catalog
  import opened Shop
  import opened ShopProofs
  import opened ShopTheorems

  // The mark and the transaction go together.

  /** A purchase transaction of the product that was not declined. */
  predicate Sale(tx: Transaction, pid: Id) {
    tx.productId == Some(pid) && tx.status != Declined
  }

  predicate Sold(txs: map<Id, Transaction>, pid: Id) {
    exists id :: id in txs && Sale(txs[id], pid)
  }

  predicate Stamped(products: map<Id, Product>, pid: Id) {
    pid in products && products[pid].firstPurchasedAt.Some?
  }

  ghost predicate Paired(s: Shop) {
    && (forall pid :: Stamped(s.products, pid) ==> pid in s.markedAlone || Sold(s.txs, pid))
    && (forall id, pid :: id in s.txs && Sale(s.txs[id], pid) ==> Stamped(s.products, pid))
  }

  lemma SoldStays(txs: map<Id, Transaction>, txs': map<Id, Transaction>, pid: Id)
    requires TxsEvolve(txs, txs') && Sold(txs, pid)
    ensures Sold(txs', pid)
  {
    var id :| id in txs && Sale(txs[id], pid);
    assert Sale(txs'[id], pid);
  }

  /** Stamps and sales that are not new stay; new ones have to be paired. */
  lemma PairedAfter(s: Shop, s': Shop)
    requires Paired(s) && TxsEvolve(s.txs, s'.txs) && ProductsEvolve(s.products, s'.products)
    requires s.markedAlone <= s'.markedAlone
    requires forall pid :: Stamped(s'.products, pid) && !Stamped(s.products, pid) ==>
      pid in s'.markedAlone || Sold(s'.txs, pid)
    requires forall id, pid :: id in s'.txs && id !in s.txs && Sale(s'.txs[id], pid) ==> Stamped(s'.products, pid)
    ensures Paired(s')
  {
    forall pid | Stamped(s'.products, pid) && Stamped(s.products, pid)
      ensures pid in s'.markedAlone || Sold(s'.txs, pid)
    {
      if Sold(s.txs, pid) { SoldStays(s.txs, s'.txs, pid); }
    }
    forall id, pid | id in s'.txs && id in s.txs && Sale(s'.txs[id], pid)
      ensures Stamped(s'.products, pid)
    {
      assert Life(s.txs[id], s'.txs[id]) && Sale(s.txs[id], pid);
      assert Stamped(s.products, pid) && ProductKept(s.products[pid], s'.products[pid]);
    }
  }

  lemma CommitPairs(s: Shop, cid: Id)
    requires Paired(s) && Calls(s) && cid in s.calls && ReadyToCommit(s.calls[cid].stage)
    ensures Paired(Committed(s, cid))
  {
    var s', st := Committed(s, cid), s.calls[cid].stage;
    CommitEvolves(s, cid);
    assert CallOk(s, cid, s.calls[cid]);
    assert s'.txs[st.txid] == st.row;
    assert st.row.status != Declined ==> Sale(s'.txs[st.txid], s.calls[cid].req.productId);
    PairedAfter(s, s');
  }

  lemma OutsidePairs(s: Shop, e: Event)
    requires Paired(s) && !IsCall(e)
    ensures Paired(Step(s, e))
  {
    OtherIsOutside(s, e);
    OutsideStamps(s, e);
    PairedAfter(s, Step(s, e));
  }

  /** Outside purchases only the lone mark stamps a product, and no sale appears. */
  lemma {:induction false} OutsideStamps(s: Shop, e: Event)
    requires !IsCall(e)
    ensures s.markedAlone <= Step(s, e).markedAlone
    ensures forall pid :: Stamped(Step(s, e).products, pid) && !Stamped(s.products, pid) ==>
      pid in Step(s, e).markedAlone
    ensures forall id :: id in Step(s, e).txs && id !in s.txs ==> Step(s, e).txs[id].productId.None?
  {
    match e
    case WriteEdit(eid) => WriteStamps(s, eid);
    case ReadEdit(eid, merchant, id, req) => ReadsLeaveTables(s, eid, merchant, id, req);
    case ExplainEdit(eid) =>
    case SetArchived(_, _, _) =>
    case MarkAlone(merchant, id, now) => MarkStamps(s, merchant, id, now);
    case CreateProduct(id, p) => CreateStamps(s, id, p);
    case MoveOn(_, _) =>
    case AuthorizeOnly(_, _) =>
  }

  lemma MarkStamps(s: Shop, merchant: string, id: Id, now: int)
    ensures var s' := DoMarkAlone(s, merchant, id, now);
      && s'.txs == s.txs && s.markedAlone <= s'.markedAlone
      && forall pid :: Stamped(s'.products, pid) && !Stamped(s.products, pid) ==> pid in s'.markedAlone
  {}

  lemma CreateStamps(s: Shop, id: Id, p: Product)
    ensures var s' := DoCreateProduct(s, id, p);
      && s'.txs == s.txs && s'.markedAlone == s.markedAlone
      && forall pid :: Stamped(s'.products, pid) ==> Stamped(s.products, pid)
  {}

  lemma WriteStamps(s: Shop, eid: Id)
    ensures var s' := DoWriteEdit(s, eid);
      && s'.txs == s.txs && s'.markedAlone == s.markedAlone
      && forall pid :: Stamped(s'.products, pid) ==> Stamped(s.products, pid)
  {}

  /** In every state a product is marked as purchased exactly when a purchase of it that was not declined is stored
      (or it was marked on its own, which no purchase does): both become visible in one commit, or neither does. */
  lemma {:induction false} MarkedIffSold(es: seq<Event>)
    ensures Paired(Run(INIT, es))
  {
    if es != [] {
      var s, e := Run(INIT, es[..|es| - 1]), es[|es| - 1];
      MarkedIffSold(es[..|es| - 1]);
      RunsSound(es[..|es| - 1]);
      if e.Commit? {
        if e.cid in s.calls && ReadyToCommit(s.calls[e.cid].stage) { CommitPairs(s, e.cid); }
      } else if IsCall(e) {
        CallTables(s, e);
      } else {
        OutsidePairs(s, e);
      }
    }
  }

  lemma NoLoneMark(s: Shop, e: Event)
    requires !e.MarkAlone?
    ensures Step(s, e).markedAlone == s.markedAlone
  {
    if IsCall(e) && !e.Commit? {
      CallTables(s, e);
    } else {
      match e
      case WriteEdit(eid) => WriteStamps(s, eid);
      case ReadEdit(eid, merchant, id, req) => ReadsLeaveTables(s, eid, merchant, id, req);
      case _ =>
    }
  }

  lemma {:induction false} NoLoneMarks(es: seq<Event>)
    requires forall e :: e in es ==> !e.MarkAlone?
    ensures Run(INIT, es).markedAlone == {}
  {
    if es != [] {
      assert es[|es| - 1] in es;
      NoLoneMarks(es[..|es| - 1]);
      NoLoneMark(Run(INIT, es[..|es| - 1]), es[|es| - 1]);
    }
  }

  /** Where only purchases mark products, marked means sold. */
  lemma {:induction false} PurchasesMarkExactly(es: seq<Event>, pid: Id)
    requires forall e :: e in es ==> !e.MarkAlone?
    ensures Stamped(Run(INIT, es).products, pid) <==> Sold(Run(INIT, es).txs, pid)
  {
    MarkedIffSold(es);
    NoLoneMarks(es);
    var s := Run(INIT, es);
    if Sold(s.txs, pid) {
      var id :| id in s.txs && Sale(s.txs[id], pid);
    }
  }

  // What the first purchase freezes.

  lemma KeptChains(ps: map<Id, Product>, ps': map<Id, Product>, ps'': map<Id, Product>)
    requires ProductsEvolve(ps, ps') && ProductsEvolve(ps', ps'')
    ensures ProductsEvolve(ps, ps'')
  {}

  /** Once a product is purchased, its first purchase, slug, price and currency never change. */
  lemma {:induction false} FrozenForever(es: seq<Event>, more: seq<Event>)
    ensures ProductsEvolve(Run(INIT, es).products, Run(INIT, es + more).products)
  {
    if more == [] {
      assert es + more == es;
    } else {
      var most := es + more[..|more| - 1];
      assert (es + more)[..|es + more| - 1] == most;
      FrozenForever(es, more[..|more| - 1]);
      RunsSound(most);
      StepEvolves(Run(INIT, most), more[|more| - 1]);
      KeptChains(Run(INIT, es).products, Run(INIT, most).products, Run(INIT, es + more).products);
    }
  }

  predicate PricedFinally(s: Shop) {
    forall id :: id in s.priced ==>
      && id in s.txs && s.txs[id].productId.Some?
      && FinalPrice(s.products, s.txs[id].productId.value, s.txs[id].amount, s.txs[id].currency)
  }

  lemma PricedStays(s: Shop, s': Shop)
    requires PricedFinally(s) && TxsEvolve(s.txs, s'.txs) && ProductsEvolve(s.products, s'.products)
    requires s'.priced == s.priced
    ensures PricedFinally(s')
  {
    forall id | id in s.priced
      ensures id in s'.txs && s'.txs[id].productId.Some?
        && FinalPrice(s'.products, s'.txs[id].productId.value, s'.txs[id].amount, s'.txs[id].currency)
    {
      assert Life(s.txs[id], s'.txs[id]);
    }
  }

  lemma CommitPrices(s: Shop, cid: Id)
    requires PricedFinally(s) && Calls(s) && cid in s.calls && ReadyToCommit(s.calls[cid].stage)
    ensures PricedFinally(Committed(s, cid))
  {
    CommitEvolves(s, cid);
    assert CallOk(s, cid, s.calls[cid]);
    PricedStays(s, Committed(s, cid).(priced := s.priced));
  }

  lemma OthersPriceNothing(s: Shop, e: Event)
    requires !IsCall(e)
    ensures Step(s, e).priced == s.priced
  {
    match e
    case WriteEdit(eid) =>
    case ReadEdit(eid, merchant, id, req) => ReadsLeaveTables(s, eid, merchant, id, req);
    case ExplainEdit(eid) =>
    case SetArchived(_, _, _) =>
    case MarkAlone(_, _, _) =>
    case CreateProduct(_, _) =>
    case MoveOn(_, _) =>
    case AuthorizeOnly(_, _) =>
  }

  /** A purchase that read the product after its first purchase charges the frozen price, then and ever after. */
  lemma {:induction false} FrozenPriceIsCharged(es: seq<Event>)
    ensures PricedFinally(Run(INIT, es))
  {
    if es != [] {
      var s, e := Run(INIT, es[..|es| - 1]), es[|es| - 1];
      FrozenPriceIsCharged(es[..|es| - 1]);
      RunsSound(es[..|es| - 1]);
      StepEvolves(s, e);
      if e.Commit? {
        if e.cid in s.calls && ReadyToCommit(s.calls[e.cid].stage) { CommitPrices(s, e.cid); }
      } else {
        if IsCall(e) { CallTables(s, e); } else { OthersPriceNothing(s, e); }
        PricedStays(s, Step(s, e));
      }
    }
  }

  /** So all such purchases of a product charge the same. */
  lemma {:induction false} SamePriceForAll(es: seq<Event>, a: Id, b: Id)
    requires a in Run(INIT, es).priced && b in Run(INIT, es).priced
    requires a in Run(INIT, es).txs && b in Run(INIT, es).txs
    requires Run(INIT, es).txs[a].productId == Run(INIT, es).txs[b].productId
    ensures var s := Run(INIT, es); s.txs[a].amount == s.txs[b].amount && s.txs[a].currency == s.txs[b].currency
  {
    FrozenPriceIsCharged(es);
  }

  // Slugs.

  predicate SlugsUnique(products: map<Id, Product>) {
    forall a, b :: a in products && b in products && SlugClash(products[a], products[b]) ==> a == b
  }

  lemma SlugsAfter(products: map<Id, Product>, id: Id, p: Product)
    requires SlugsUnique(products) && !SlugTaken(products, id, p)
    ensures SlugsUnique(products[id := p])
  {
    forall o | o in products && o != id ensures !SlugClash(products[o], p) && !SlugClash(p, products[o]) {}
  }

  /** Slugs and owners of existing products did not change. */
  lemma SlugsFrame(products: map<Id, Product>, products': map<Id, Product>)
    requires SlugsUnique(products) && products'.Keys == products.Keys
    requires forall id :: id in products ==>
      products'[id].slug == products[id].slug && products'[id].merchantId == products[id].merchantId
    ensures SlugsUnique(products')
  {
    forall a, b | a in products' && b in products' && SlugClash(products'[a], products'[b]) ensures a == b {
      assert SlugClash(products[a], products[b]);
    }
  }

  lemma WriteSlugs(s: Shop, eid: Id)
    requires SlugsUnique(s.products)
    ensures SlugsUnique(DoWriteEdit(s, eid).products)
  {
    if eid in s.edits && !s.edits[eid].missed && s.edits[eid].id !in s.locks {
      var e := s.edits[eid];
      match GuardedWrite(s.products, e.merchantId, e.id, e.update)
      case Hit(row) => SlugsAfter(s.products, e.id, row);
      case _ =>
    }
  }

  lemma CreateSlugs(s: Shop, id: Id, p: Product)
    requires SlugsUnique(s.products)
    ensures SlugsUnique(DoCreateProduct(s, id, p).products)
  {
    if !SlugTaken(s.products, id, p) { SlugsAfter(s.products, id, p); }
  }

  lemma ArchiveSlugs(s: Shop, merchant: string, id: Id, archived: bool)
    requires SlugsUnique(s.products)
    ensures SlugsUnique(DoSetArchived(s, merchant, id, archived).products)
  {
    if Owned(s.products, merchant, id) { SlugsFrame(s.products, DoSetArchived(s, merchant, id, archived).products); }
  }

  lemma MarkSlugs(s: Shop, merchant: string, id: Id, now: int)
    requires SlugsUnique(s.products)
    ensures SlugsUnique(DoMarkAlone(s, merchant, id, now).products)
  {
    if Owned(s.products, merchant, id) { SlugsFrame(s.products, DoMarkAlone(s, merchant, id, now).products); }
  }

  lemma {:induction false} OtherSlugs(s: Shop, e: Event)
    requires SlugsUnique(s.products) && !IsCall(e)
    ensures SlugsUnique(Step(s, e).products)
  {
    match e
    case WriteEdit(eid) => WriteSlugs(s, eid);
    case CreateProduct(id, p) => CreateSlugs(s, id, p);
    case ReadEdit(eid, merchant, id, req) => ReadsLeaveTables(s, eid, merchant, id, req);
    case ExplainEdit(eid) =>
    case SetArchived(merchant, id, archived) => ArchiveSlugs(s, merchant, id, archived);
    case MarkAlone(merchant, id, now) => MarkSlugs(s, merchant, id, now);
    case MoveOn(_, _) =>
    case AuthorizeOnly(_, _) =>
  }

  /** No two products of a merchant ever have the same slug. */
  lemma {:induction false} SlugsStayUnique(es: seq<Event>)
    ensures SlugsUnique(Run(INIT, es).products)
  {
    if es != [] {
      var s, e := Run(INIT, es[..|es| - 1]), es[|es| - 1];
      SlugsStayUnique(es[..|es| - 1]);
      if e.Commit? {
        if e.cid in s.calls && ReadyToCommit(s.calls[e.cid].stage) {
          SlugsFrame(s.products, Committed(s, e.cid).products);
        }
      } else if IsCall(e) {
        CallTables(s, e);
      } else {
        OtherSlugs(s, e);
      }
    }
  }
}
