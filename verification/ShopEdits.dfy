/** Product updates: validation against a stale read and a guarded write refine one atomic
    validate-and-write, except for what they answer when the write misses. */
module ShopEdits {
  import opened Base
  import opened Transactions
  import opened Catalog
  import opened Slug
  import opened Shop
  import opened ShopProofs
  import ShopCatalog

  /** Read, validate and write in one go. */
  function AtomicUpdate(products: map<Id, Product>, merchant: string, id: Id, req: UpdateRequest)
    : (map<Id, Product>, Option<UpdateError>)
  {
    if !Owned(products, merchant, id) then (products, Some(NotFound))
    else match NewUpdate(req, products[id])
      case Err(e) => (products, Some(e))
      case Ok(u) =>
        var row := Apply(products[id], u);
        if !CheckOk(row) then (products, Some(DatabaseError))
        else if SlugTaken(products, id, row) then (products, Some(SlugConflict))
        else (products[id := row], None)
  }

  predicate WellFormedSlug(s: string) {
    1 <= |s| <= 64 && s[0] != '-' && CleanTail(s)
  }

  /** What is told about an update, in the order of the checks: of the request, of the product, of the slug, of the
      table's constraints. */
  function UpdateVerdict(products: map<Id, Product>, merchant: string, id: Id, req: UpdateRequest)
    : Option<UpdateError>
  {
    var locked := req.slug.Some? || req.price.Some? || req.currency.Some?;
    if id !in products || products[id].merchantId != merchant then Some(NotFound)
    else
      var p := products[id];
      var slug := if req.slug.Some? then req.slug else p.slug;
      if req.name.None? && req.description.None? && !locked then Some(EmptyUpdate)
      else if p.archived then Some(Archived)
      else if locked && p.firstPurchasedAt.Some? then Some(FieldsLocked)
      else if req.slug == Some("") then Some(SlugRemoval)
      else if req.slug.Some? && !WellFormedSlug(req.slug.value) then Some(InvalidSlug)
      else if (if req.price.Some? then req.price.value else p.price) <= 0 then Some(DatabaseError)
      else if |if req.currency.Some? then req.currency.value else p.currency| != 3 then Some(DatabaseError)
      else if slug.Some? && exists other :: other in products && other != id && products[other].slug == slug
                                         && products[other].merchantId == merchant
      then Some(SlugConflict)
      else None
  }

  /** The row after an update that went through: given fields are set, the others stay. */
  function Updated(p: Product, req: UpdateRequest): Product {
    p.(name := if req.name.Some? then req.name.value else p.name,
       description := if req.description.Some? then req.description.value else p.description,
       slug := if req.slug.Some? then req.slug else p.slug,
       price := if req.price.Some? then req.price.value else p.price,
       currency := if req.currency.Some? then req.currency.value else p.currency)
  }

  /** The atomic update does what this says, to this row and no other. */
  lemma AtomicUpdateMeans(products: map<Id, Product>, merchant: string, id: Id, req: UpdateRequest)
    ensures var (products', error) := AtomicUpdate(products, merchant, id, req);
      && error == UpdateVerdict(products, merchant, id, req)
      && products' == if error.None? then products[id := Updated(products[id], req)] else products
  {
    if req.slug.Some? { SlugLanguage(req.slug.value); }
    if Owned(products, merchant, id) && NewUpdate(req, products[id]).Ok? {
      var row := Apply(products[id], NewUpdate(req, products[id]).update);
      AcceptedUpdate(req, products[id]);
      assert row == Updated(products[id], req);
      assert forall other :: other in products ==> (SlugClash(products[other], row) <==>
        row.slug.Some? && products[other].slug == row.slug && products[other].merchantId == merchant);
    }
  }

  /** Every edit under way was validated against some version of its product. */
  predicate EditsValidated(s: Shop) {
    forall eid :: eid in s.edits ==> NewUpdate(s.edits[eid].req, s.edits[eid].seen) == Ok(s.edits[eid].update)
  }

  lemma CallsLeaveEdits(s: Shop, e: Event)
    requires IsCall(e)
    ensures Step(s, e).edits == s.edits
  {
    match e
    case Begin(cid, req, found) => BeginTables(s, cid, req, found);
    case Insert(cid, txid) => InsertTables(s, cid, txid);
    case Mark(cid, now) => MarkTables(s, cid, now);
    case Resolve(cid, found) => ResolveTables(s, cid, found);
    case Load(_) =>
    case AskBank(_, _) =>
    case Commit(cid) => CommitLeavesEdits(s, cid);
    case StartCapture(cid, ok) => CaptureLeavesEdits(s, cid, ok);
    case Drop(_) =>
  }

  lemma CommitLeavesEdits(s: Shop, cid: Id)
    ensures DoCommit(s, cid).edits == s.edits
  {}

  lemma CaptureLeavesEdits(s: Shop, cid: Id, ok: bool)
    ensures DoStartCapture(s, cid, ok).edits == s.edits
  {}

  lemma EditsStep(s: Shop, e: Event)
    requires EditsValidated(s) && !IsCall(e)
    ensures EditsValidated(Step(s, e))
  {
    match e
    case ReadEdit(eid, merchant, id, req) => ReadKeepsEdits(s, eid, merchant, id, req);
    case WriteEdit(eid) => WriteKeepsEdits(s, eid);
    case ExplainEdit(eid) =>
    case SetArchived(_, _, _) =>
    case MarkAlone(_, _, _) =>
    case CreateProduct(_, _) =>
    case MoveOn(_, _) =>
    case AuthorizeOnly(_, _) =>
  }

  lemma WriteKeepsEdits(s: Shop, eid: Id)
    requires EditsValidated(s)
    ensures EditsValidated(DoWriteEdit(s, eid))
  {}

  lemma ReadKeepsEdits(s: Shop, eid: Id, merchant: string, id: Id, req: UpdateRequest)
    requires EditsValidated(s)
    ensures EditsValidated(DoReadEdit(s, eid, merchant, id, req))
  {}

  lemma {:induction false} RunsValidate(es: seq<Event>)
    ensures EditsValidated(Run(INIT, es))
  {
    if es != [] {
      var s, e := Run(INIT, es[..|es| - 1]), es[|es| - 1];
      RunsValidate(es[..|es| - 1]);
      if IsCall(e) { CallsLeaveEdits(s, e); } else { EditsStep(s, e); }
    }
  }

  /** The guarded write of an edit validated against any version does to the table what validating and writing at
      this instant would do; when it cannot write it leaves the table alone, and so would that. */
  predicate WritesAtomically(s: Shop, s': Shop, e: Edit) {
    && s'.products == AtomicUpdate(s.products, e.merchantId, e.id, e.req).0
    && (s'.editAnswers != s.editAnswers ==>
          s'.editAnswers == s.editAnswers +
            [EditAnswer(e.id, e.req, AtomicUpdate(s.products, e.merchantId, e.id, e.req).1)])
    && (s'.editAnswers == s.editAnswers ==> AtomicUpdate(s.products, e.merchantId, e.id, e.req).1.Some?)
  }

  lemma ValidatedWriteIsAtomic(s: Shop, eid: Id)
    requires eid in s.edits && !s.edits[eid].missed && s.edits[eid].id !in s.locks
    requires var e := s.edits[eid]; NewUpdate(e.req, e.seen) == Ok(e.update)
    ensures WritesAtomically(s, DoWriteEdit(s, eid), s.edits[eid])
  {
    var e := s.edits[eid];
    if Owned(s.products, e.merchantId, e.id) { GuardIsRevalidation(e.req, e.seen, s.products[e.id]); }
  }

  /** In every interleaving. */
  lemma {:induction false} EditWriteIsAtomic(es: seq<Event>, eid: Id)
    requires var s := Run(INIT, es); eid in s.edits && !s.edits[eid].missed && s.edits[eid].id !in s.locks
    ensures var s := Run(INIT, es); WritesAtomically(s, Step(s, WriteEdit(eid)), s.edits[eid])
  {
    RunsValidate(es);
    ValidatedWriteIsAtomic(Run(INIT, es), eid);
  }

  /** With no other writer in between, the update is the atomic one: the guarded write misses no row. */
  lemma SoloEdit(s: Shop, eid: Id, merchant: string, id: Id, req: UpdateRequest)
    requires eid !in s.edits && id !in s.locks
    ensures var s' := if NewEditOpens(s, merchant, id, req) then DoWriteEdit(DoReadEdit(s, eid, merchant, id, req), eid)
                      else DoReadEdit(s, eid, merchant, id, req);
      && s'.products == AtomicUpdate(s.products, merchant, id, req).0
      && s'.editAnswers == s.editAnswers + [EditAnswer(id, req, AtomicUpdate(s.products, merchant, id, req).1)]
      && s'.edits == s.edits
  {
    if NewEditOpens(s, merchant, id, req) {
      var e := Edit(merchant, id, req, s.products[id], NewUpdate(req, s.products[id]).update, false);
      assert DoReadEdit(s, eid, merchant, id, req) == s.(edits := s.edits[eid := e]);
      SoloWrite(s, eid, e);
    }
  }

  lemma SoloWrite(s: Shop, eid: Id, e: Edit)
    requires eid !in s.edits && e.id !in s.locks && !e.missed && Owned(s.products, e.merchantId, e.id)
    requires e.seen == s.products[e.id] && NewUpdate(e.req, e.seen) == Ok(e.update)
    ensures var s' := DoWriteEdit(s.(edits := s.edits[eid := e]), eid);
      && s'.products == AtomicUpdate(s.products, e.merchantId, e.id, e.req).0
      && s'.editAnswers == s.editAnswers +
           [EditAnswer(e.id, e.req, AtomicUpdate(s.products, e.merchantId, e.id, e.req).1)]
      && s'.edits == s.edits
  {
    GuardIsRevalidation(e.req, e.seen, e.seen);
    FreshWriteIsAtomic(s.products, e);
    assert s.edits[eid := e] - {eid} == s.edits;
  }

  lemma FreshWriteIsAtomic(products: map<Id, Product>, e: Edit)
    requires Owned(products, e.merchantId, e.id) && NewUpdate(e.req, products[e.id]) == Ok(e.update)
    requires Guard(products[e.id], e.update)
    ensures match GuardedWrite(products, e.merchantId, e.id, e.update)
      case Miss => false
      case Refused(error) => AtomicUpdate(products, e.merchantId, e.id, e.req) == (products, Some(error))
      case Hit(row) => AtomicUpdate(products, e.merchantId, e.id, e.req) == (products[e.id := row], None)
  {}

  predicate NewEditOpens(s: Shop, merchant: string, id: Id, req: UpdateRequest) {
    Owned(s.products, merchant, id) && NewUpdate(req, s.products[id]).Ok?
  }

  /** A miss is explained by a second read. The answer is the one validation gives on the row as it is then,
      or NotFound although the product exists: exactly when that row would accept the update. */
  lemma SpuriousNotFoundIff(products: map<Id, Product>, merchant: string, id: Id, req: UpdateRequest, seen: Product)
    requires Owned(products, merchant, id) && NewUpdate(req, seen).Ok?
    ensures var answer := Explanation(products, merchant, id, NewUpdate(req, seen).update);
      && (answer == NotFound <==> NewUpdate(req, products[id]).Ok?)
      && (answer != NotFound ==> NewUpdate(req, products[id]) == Err(answer))
  {
    GuardIsRevalidation(req, seen, products[id]);
  }

  predicate Refuses(p: Product, u: Update) {
    u.locked.Some? && p.firstPurchasedAt.Some?
  }

  /** The product was archived, and now that it is not, nothing stands in the way of the update. */
  predicate OnlyArchivedThen(before: Product, now: Product, u: Update) {
    before.archived && !now.archived && !Refuses(now, u)
  }

  /** The edit's write misses an existing product in `s`, and its caller has not been answered by `s'`. */
  predicate MissedWrite(s: Shop, s': Shop, eid: Id) {
    && eid in s.edits && !s.edits[eid].missed
    && Owned(s.products, s.edits[eid].merchantId, s.edits[eid].id) && s.edits[eid].id !in s.locks
    && !Guard(s.products[s.edits[eid].id], s.edits[eid].update)
    && eid in s'.edits && s'.edits[eid] == s.edits[eid].(missed := true)
  }

  /** Over whole runs, whatever happens between the write that missed and the second look: the caller of an existing
      product is told NotFound exactly when the product was archived for the write, was active again for the second
      look, and was not purchased by then in a way that forbids the update. */
  lemma {:induction false} SpuriousNotFoundInRuns(es: seq<Event>, more: seq<Event>, eid: Id)
    requires MissedWrite(Run(INIT, es), Run(INIT, es + [WriteEdit(eid)] + more), eid)
    ensures var s, s' := Run(INIT, es), Run(INIT, es + [WriteEdit(eid)] + more);
      var e := s.edits[eid];
      && Owned(s'.products, e.merchantId, e.id)
      && exists error ::
           && Step(s', ExplainEdit(eid)).editAnswers == s'.editAnswers + [EditAnswer(e.id, e.req, Some(error))]
           && (error == NotFound <==> OnlyArchivedThen(s.products[e.id], s'.products[e.id], e.update))
  {
    var s, s' := Run(INIT, es), Run(INIT, es + [WriteEdit(eid)] + more);
    var e := s.edits[eid];
    assert es + [WriteEdit(eid)] + more == es + ([WriteEdit(eid)] + more);
    ShopCatalog.FrozenForever(es, [WriteEdit(eid)] + more);
    assert ProductKept(s.products[e.id], s'.products[e.id]);
    ExplainsMiss(s, s', eid, e);
  }

  lemma ExplainsMiss(s: Shop, s': Shop, eid: Id, e: Edit)
    requires eid in s'.edits && s'.edits[eid] == e.(missed := true)
    requires Owned(s.products, e.merchantId, e.id) && !Guard(s.products[e.id], e.update)
    requires Owned(s'.products, e.merchantId, e.id) && ProductKept(s.products[e.id], s'.products[e.id])
    ensures var error := Explanation(s'.products, e.merchantId, e.id, e.update);
      && DoExplainEdit(s', eid).editAnswers == s'.editAnswers + [EditAnswer(e.id, e.req, Some(error))]
      && (error == NotFound <==> OnlyArchivedThen(s.products[e.id], s'.products[e.id], e.update))
  {}

  // Runs that show which stronger claims fail.

  const SHELF := Product("m", None, "Mug", "", 100, "USD", false, None)
  const RAISE := UpdateRequest(None, None, None, Some(200), None)
  const ORDER := Request("m", "o", "p", "card", "k")

  lemma {:induction false} RunOne(es: seq<Event>, e: Event)
    ensures Run(INIT, es + [e]) == Step(Run(INIT, es), e)
  {
    assert (es + [e])[..|es|] == es;
  }

  lemma {:induction false} Shelved() returns (es: seq<Event>)
    ensures Run(INIT, es) == INIT.(products := map["p" := SHELF])
  {
    es := [] + [CreateProduct("p", SHELF)];
    RunOne([], CreateProduct("p", SHELF));
    assert |SHELF.currency| == 3;
  }

  const RAISE_UPDATE := Update(None, Some(LockedAfterPurchase(None, Some(200), None)))
  const OPEN_EDIT := Edit("m", "p", RAISE, SHELF, RAISE_UPDATE, false)

  lemma {:induction false} MissedEdit() returns (es: seq<Event>)
    ensures Run(INIT, es) ==
      INIT.(products := map["p" := SHELF.(archived := true)], edits := map["e" := OPEN_EDIT.(missed := true)])
  {
    es := Shelved();
    var s0 := Run(INIT, es);
    var e1, e2, e3 := ReadEdit("e", "m", "p", RAISE), SetArchived("m", "p", true), WriteEdit("e");
    RunOne(es, e1);
    RunOne(es + [e1], e2);
    RunOne(es + [e1] + [e2], e3);
    var s1 := s0.(edits := map["e" := OPEN_EDIT]);
    assert DoReadEdit(s0, "e", "m", "p", RAISE) == s1;
    var s2 := s1.(products := map["p" := SHELF.(archived := true)]);
    assert DoSetArchived(s1, "m", "p", true) == s2;
    es := es + [e1] + [e2] + [e3];
  }

  /** The product is archived and unarchived around the write: the caller is told NotFound about a product that
      exists. */
  lemma {:induction false} NotFoundForAnExistingProduct() returns (es: seq<Event>)
    ensures var s := Run(INIT, es);
      "p" in s.products && s.products["p"] == SHELF && s.editAnswers == [EditAnswer("p", RAISE, Some(NotFound))]
  {
    es := MissedEdit();
    var s0 := Run(INIT, es);
    var e4, e5 := SetArchived("m", "p", false), ExplainEdit("e");
    RunOne(es, e4);
    RunOne(es + [e4], e5);
    var s1 := s0.(products := map["p" := SHELF]);
    assert DoSetArchived(s0, "m", "p", false) == s1;
    Explained(s1);
    es := es + [e4] + [e5];
  }

  lemma Explained(s: Shop)
    requires s == INIT.(products := map["p" := SHELF], edits := map["e" := OPEN_EDIT.(missed := true)])
    ensures DoExplainEdit(s, "e") ==
      INIT.(products := map["p" := SHELF], editAnswers := [EditAnswer("p", RAISE, Some(NotFound))])
  {
    assert s.edits - {"e"} == map[];
  }

  const ROW := NewTransaction(AuthFor(ORDER, 100, "USD"), Approve)

  const WAITING := map["c" := Call(ORDER, Loaded(100, "USD", false))]

  lemma {:induction false} LoadedAtHundred() returns (es: seq<Event>)
    ensures Run(INIT, es) == INIT.(products := map["p" := SHELF], calls := WAITING)
  {
    es := Shelved();
    var s0 := Run(INIT, es);
    var e1, e2 := Begin("c", ORDER, ""), Load("c");
    RunOne(es, e1);
    RunOne(es + [e1], e2);
    assert DoLoad(s0.(calls := map["c" := Call(ORDER, Checked)]), "c") == s0.(calls := WAITING);
    es := es + [e1] + [e2];
  }

  lemma {:induction false} RaisedAfterLoading() returns (es: seq<Event>)
    ensures var s := Run(INIT, es);
      s.calls == WAITING && s.txs == map[] && s.locks == map[] && s.products == map["p" := SHELF.(price := 200)]
  {
    es := LoadedAtHundred();
    var e3, e4 := ReadEdit("e", "m", "p", RAISE), WriteEdit("e");
    ReadRuns(es, "e", "m", "p", RAISE);
    WriteRuns(es + [e3], "e");
    RaiseGoesThrough(Run(INIT, es));
    es := es + [e3] + [e4];
  }

  lemma {:induction false} ReadRuns(es: seq<Event>, eid: Id, merchant: string, id: Id, req: UpdateRequest)
    ensures Run(INIT, es + [ReadEdit(eid, merchant, id, req)]) == DoReadEdit(Run(INIT, es), eid, merchant, id, req)
  {
    RunOne(es, ReadEdit(eid, merchant, id, req));
  }

  lemma {:induction false} WriteRuns(es: seq<Event>, eid: Id)
    ensures Run(INIT, es + [WriteEdit(eid)]) == DoWriteEdit(Run(INIT, es), eid)
  {
    RunOne(es, WriteEdit(eid));
  }

  lemma RaiseGoesThrough(s: Shop)
    requires s == INIT.(products := map["p" := SHELF], calls := WAITING)
    ensures var s' := DoWriteEdit(DoReadEdit(s, "e", "m", "p", RAISE), "e");
      s'.calls == WAITING && s'.txs == map[] && s'.locks == map[] && s'.products == map["p" := SHELF.(price := 200)]
  {
    SoloEdit(s, "e", "m", "p", RAISE);
    RaiseIsAccepted();
  }

  lemma RaiseIsAccepted()
    ensures AtomicUpdate(map["p" := SHELF], "m", "p", RAISE) == (map["p" := SHELF.(price := 200)], None)
  {
    assert |SHELF.currency| == 3;
    assert AtomicUpdate(map["p" := SHELF], "m", "p", RAISE).0 == map["p" := SHELF.(price := 200)];
  }

  lemma {:induction false} Ordered() returns (es: seq<Event>)
    ensures var s := Run(INIT, es);
      && s.calls == map["c" := Call(ORDER, Inserted("t", ROW, false))] && s.txs == map[] && s.locks == map[]
      && s.products == map["p" := SHELF.(price := 200)]
  {
    es := RaisedAfterLoading();
    var s0 := Run(INIT, es);
    var e1, e2 := AskBank("c", Some(Approve)), Insert("c", "t");
    RunOne(es, e1);
    RunOne(es + [e1], e2);
    var s1 := s0.(calls := map["c" := Call(ORDER, Decided(ROW, false))]);
    assert DoAskBank(s0, "c", Some(Approve)) == s1;
    es := es + [e1] + [e2];
  }

  /** The first purchase may charge a price that was edited away before the product was locked: 100 is charged,
      and 200 is the price from then on. */
  lemma {:induction false} FirstPurchaseMayChargeAnOldPrice() returns (es: seq<Event>)
    ensures var s := Run(INIT, es);
      && "t" in s.txs && s.txs["t"].amount == 100 && s.txs["t"].productId == Some("p")
      && "p" in s.products && s.products["p"].price == 200 && s.products["p"].firstPurchasedAt.Some?
  {
    es := Ordered();
    var s0 := Run(INIT, es);
    var e3, e4 := Mark("c", 7), Commit("c");
    RunOne(es, e3);
    RunOne(es + [e3], e4);
    var s1 := s0.(calls := map["c" := Call(ORDER, Marked("t", ROW, false, Some(7)))], locks := map["p" := "c"]);
    assert DoMark(s0, "c", 7) == s1;
    assert Committed(s1, "c").txs["t"] == ROW;
    es := es + [e3] + [e4];
  }
}
