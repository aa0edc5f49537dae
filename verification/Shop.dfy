/** Purchases and product edits on one database, interleaved statement by statement. */
module Shop {
  import opened Base
  import opened Transactions
  import opened Catalog

  datatype Request = Request(merchantId: string, orderId: string, productId: Id, cardToken: string, key: string)

  datatype Response = Response(
    transactionId: Id,
    productId: Id,
    orderId: string,
    status: Status,
    amount: int,
    currency: string,
    declineReason: string)

  datatype Reply =
    | Success(response: Response)
    | PartiallyApplied(response: Response)     // authorized and stored, but the capture call failed
    | KeyConflict                              // the key was used for another request
    | ProductNotFound
    | ProductArchived
    | RaceUnresolved                           // the winner of a race was not found
    | Failed                                   // any other error

  /** How far a purchase call has come. `priced` records whether the price it charges was already final when read. */
  datatype Stage =
    | Checked
    | Loaded(price: int, currency: string, priced: bool)
    | Decided(row: Transaction, priced: bool)
    | Inserted(txid: Id, row: Transaction, priced: bool)
    | Marked(txid: Id, row: Transaction, priced: bool, at: Option<int>)
    | Stored(txid: Id, row: Transaction)
    | Racing

  datatype Call = Call(req: Request, stage: Stage)

  /** A product update between its read and its answer; `seen` is the row it was validated against. */
  datatype Edit = Edit(merchantId: string, id: Id, req: UpdateRequest, seen: Product, update: Update, missed: bool)

  datatype Answer = Answer(req: Request, reply: Reply)

  datatype EditAnswer = EditAnswer(id: Id, req: UpdateRequest, error: Option<UpdateError>)

  datatype Shop = Shop(
    products: map<Id, Product>,
    txs: map<Id, Transaction>,
    locks: map<Id, Id>,                        // product row locks held by purchase calls
    calls: map<Id, Call>,
    edits: map<Id, Edit>,
    answers: seq<Answer>,
    editAnswers: seq<EditAnswer>,
    captures: seq<Id>,                         // transactions whose capture a purchase call started
    priced: set<Id>,                           // transactions charged at a price that was final when read
    markedAlone: set<Id>)                      // products marked as purchased outside any purchase

  const INIT := Shop(map[], map[], map[], map[], map[], [], [], [], {}, {})

  datatype Event =
    // Purchase calls.
    | Begin(cid: Id, req: Request, found: Id)  // `found`: the row the lookup returns, if there is one
    | Load(cid: Id)
    | AskBank(cid: Id, verdict: Option<Verdict>)
    | Insert(cid: Id, txid: Id)
    | Mark(cid: Id, now: int)
    | Commit(cid: Id)
    | StartCapture(cid: Id, ok: bool)
    | Resolve(cid: Id, found: Id)
    | Drop(cid: Id)                            // any statement error, cancellation or crash
    // Product edits.
    | ReadEdit(eid: Id, merchantId: string, id: Id, edit: UpdateRequest)
    | WriteEdit(eid: Id)
    | ExplainEdit(eid: Id)
    | SetArchived(merchantId: string, id: Id, archived: bool)
    | MarkAlone(merchantId: string, id: Id, now: int)
    | CreateProduct(id: Id, product: Product)
    // The rest of the provider.
    | MoveOn(txid: Id, moved: Transaction)     // capture, void, refund, settlement of a stored transaction
    | AuthorizeOnly(txid: Id, plain: Transaction)

  // Idempotency keys.

  /** The lookup on (merchant_id, purchase_idempotency_key) may return row `id`. */
  predicate Finds(txs: map<Id, Transaction>, merchant: string, key: string, id: Id) {
    id in txs && HasPurchaseKey(txs[id], merchant, key)
  }

  predicate SameRequest(tx: Transaction, req: Request) {
    tx.orderRef == req.orderId && tx.cardToken == req.cardToken && tx.productId == Some(req.productId)
  }

  function ResponseFromTx(id: Id, tx: Transaction, productId: Id): Response {
    var status := if tx.status == Authorized then CapturePending else tx.status;
    Response(id, productId, tx.orderRef, status, tx.amount, tx.currency, tx.declineReason)
  }

  /** The answer to a request whose key is already stored with transaction `id`. */
  function Replay(id: Id, tx: Transaction, req: Request): Reply {
    if !SameRequest(tx, req) then KeyConflict
    else Success(ResponseFromTx(id, tx, if tx.productId.Some? then tx.productId.value else req.productId))
  }

  // Purchase calls.

  function Answered(s: Shop, cid: Id, reply: Reply): Shop
    requires cid in s.calls
  {
    s.(calls := s.calls - {cid}, answers := s.answers + [Answer(s.calls[cid].req, reply)])
  }

  function GoOn(s: Shop, cid: Id, stage: Stage): Shop
    requires cid in s.calls
  {
    s.(calls := s.calls[cid := s.calls[cid].(stage := stage)])
  }

  /** Rolls back the database transaction of a call, if it is in one. */
  function Released(s: Shop, cid: Id): Shop
    requires cid in s.calls
  {
    var c := s.calls[cid];
    if c.stage.Marked? && c.stage.at.Some? then s.(locks := s.locks - {c.req.productId}) else s
  }

  function DoBegin(s: Shop, cid: Id, req: Request, found: Id): Shop {
    if cid in s.calls then s
    else
      var s1 := s.(calls := s.calls[cid := Call(req, Checked)]);
      if req.key == "" then Answered(s1, cid, Failed)
      else if Finds(s.txs, req.merchantId, req.key, found) then Answered(s1, cid, Replay(found, s.txs[found], req))
      else if PurchaseKeyUsed(s.txs, req.merchantId, req.key) then s      // the lookup returns another row
      else s1
  }

  function DoLoad(s: Shop, cid: Id): Shop {
    if cid !in s.calls || !s.calls[cid].stage.Checked? then s
    else
      var req := s.calls[cid].req;
      if !Owned(s.products, req.merchantId, req.productId) then Answered(s, cid, ProductNotFound)
      else
        var p := s.products[req.productId];
        if p.archived then Answered(s, cid, ProductArchived)
        else GoOn(s, cid, Loaded(p.price, p.currency, p.firstPurchasedAt.Some?))
  }

  /** What the purchase asks AuthorizeInTx to authorize. */
  function AuthFor(req: Request, price: int, currency: string): AuthRequest {
    AuthRequest(req.merchantId, req.orderId, price, currency, req.cardToken, req.key, Some(req.productId))
  }

  function DoAskBank(s: Shop, cid: Id, verdict: Option<Verdict>): Shop {
    if cid !in s.calls || !s.calls[cid].stage.Loaded? then s
    else if verdict.None? then Answered(s, cid, Failed)
    else
      var c := s.calls[cid];
      GoOn(s, cid,
        Decided(NewTransaction(AuthFor(c.req, c.stage.price, c.stage.currency), verdict.value), c.stage.priced))
  }

  predicate InFlight(c: Call) {
    c.stage.Inserted? || c.stage.Marked?
  }

  predicate IdInFlight(s: Shop, txid: Id) {
    exists other :: other in s.calls && InFlight(s.calls[other]) && s.calls[other].stage.txid == txid
  }

  predicate KeyInFlight(s: Shop, merchant: string, key: string) {
    exists other :: other in s.calls && InFlight(s.calls[other]) &&
      HasPurchaseKey(s.calls[other].stage.row, merchant, key)
  }

  function DoInsert(s: Shop, cid: Id, txid: Id): Shop {
    if cid !in s.calls || !s.calls[cid].stage.Decided? || txid in s.txs || IdInFlight(s, txid) then s
    else
      var row := s.calls[cid].stage.row;
      if KeyInFlight(s, row.merchantId, row.purchaseKey) then s                     // waits for the index
      else if PurchaseKeyUsed(s.txs, row.merchantId, row.purchaseKey) then GoOn(s, cid, Racing)
      else GoOn(s, cid, Inserted(txid, row, s.calls[cid].stage.priced))
  }

  /** UPDATE ... SET first_purchased_at WHERE first_purchased_at IS NULL. */
  function DoMark(s: Shop, cid: Id, now: int): Shop {
    if cid !in s.calls || !s.calls[cid].stage.Inserted? || s.calls[cid].stage.row.status != Authorized then s
    else
      var st := s.calls[cid].stage;
      var pid := s.calls[cid].req.productId;
      if !Owned(s.products, s.calls[cid].req.merchantId, pid) then Answered(s, cid, ProductNotFound)
      else if s.products[pid].firstPurchasedAt.Some? then GoOn(s, cid, Marked(st.txid, st.row, st.priced, None))
      else if pid in s.locks then s                                                 // waits for the row lock
      else GoOn(s, cid, Marked(st.txid, st.row, st.priced, Some(now))).(locks := s.locks[pid := cid])
  }

  predicate ReadyToCommit(st: Stage) {
    st.Marked? || (st.Inserted? && st.row.status != Authorized)
  }

  function MarkedAt(st: Stage): Option<int> {
    if st.Marked? then st.at else None
  }

  function StampProduct(products: map<Id, Product>, pid: Id, at: Option<int>): map<Id, Product> {
    if at.Some? && pid in products then products[pid := products[pid].(firstPurchasedAt := at)] else products
  }

  /** Transaction row and product mark become visible together. */
  function Committed(s: Shop, cid: Id): Shop
    requires cid in s.calls && ReadyToCommit(s.calls[cid].stage)
  {
    var st := s.calls[cid].stage;
    Released(s, cid).(
      txs := s.txs[st.txid := st.row],
      products := StampProduct(s.products, s.calls[cid].req.productId, MarkedAt(st)),
      priced := if st.priced then s.priced + {st.txid} else s.priced)
  }

  function DoCommit(s: Shop, cid: Id): Shop {
    if cid !in s.calls || !ReadyToCommit(s.calls[cid].stage) then s
    else
      var st := s.calls[cid].stage;
      if st.row.status == Authorized then GoOn(Committed(s, cid), cid, Stored(st.txid, st.row))
      else Answered(Committed(s, cid), cid, Success(ResponseFromTx(st.txid, st.row, s.calls[cid].req.productId)))
  }

  function DoStartCapture(s: Shop, cid: Id, ok: bool): Shop {
    if cid !in s.calls || !s.calls[cid].stage.Stored? then s
    else
      var st := s.calls[cid].stage;
      var response := ResponseFromTx(st.txid, st.row, s.calls[cid].req.productId);
      Answered(s, cid, if ok then Success(response) else PartiallyApplied(response.(status := Authorized)))
        .(captures := s.captures + [st.txid])
  }

  function DoResolve(s: Shop, cid: Id, found: Id): Shop {
    if cid !in s.calls || !s.calls[cid].stage.Racing? then s
    else
      var req := s.calls[cid].req;
      if Finds(s.txs, req.merchantId, req.key, found) then Answered(s, cid, Replay(found, s.txs[found], req))
      else if PurchaseKeyUsed(s.txs, req.merchantId, req.key) then s      // the lookup returns another row
      else Answered(s, cid, RaceUnresolved)
  }

  function DoDrop(s: Shop, cid: Id): Shop {
    if cid in s.calls then Answered(Released(s, cid), cid, Failed) else s
  }

  // Product edits.

  function EditDone(s: Shop, eid: Id, error: Option<UpdateError>): Shop
    requires eid in s.edits
  {
    s.(edits := s.edits - {eid}, editAnswers := s.editAnswers + [EditAnswer(s.edits[eid].id, s.edits[eid].req, error)])
  }

  function DoReadEdit(s: Shop, eid: Id, merchant: string, id: Id, req: UpdateRequest): Shop {
    if eid in s.edits then s
    else if !Owned(s.products, merchant, id) then
      s.(editAnswers := s.editAnswers + [EditAnswer(id, req, Some(NotFound))])
    else match NewUpdate(req, s.products[id])
      case Err(e) => s.(editAnswers := s.editAnswers + [EditAnswer(id, req, Some(e))])
      case Ok(u) => s.(edits := s.edits[eid := Edit(merchant, id, req, s.products[id], u, false)])
  }

  /** What the guarded UPDATE does to the current row: nothing, an error, or the new row. */
  datatype WriteOutcome = Miss | Refused(error: UpdateError) | Hit(row: Product)

  function GuardedWrite(products: map<Id, Product>, merchant: string, id: Id, u: Update): WriteOutcome {
    if !Owned(products, merchant, id) || !Guard(products[id], u) then Miss
    else
      var row := Apply(products[id], u);
      if !CheckOk(row) then Refused(DatabaseError)
      else if SlugTaken(products, id, row) then Refused(SlugConflict)
      else Hit(row)
  }

  function DoWriteEdit(s: Shop, eid: Id): Shop {
    if eid !in s.edits || s.edits[eid].missed || s.edits[eid].id in s.locks then s
    else
      var e := s.edits[eid];
      match GuardedWrite(s.products, e.merchantId, e.id, e.update)
      case Miss => s.(edits := s.edits[eid := e.(missed := true)])
      case Refused(error) => EditDone(s, eid, Some(error))
      case Hit(row) => EditDone(s.(products := s.products[e.id := row]), eid, None)
  }

  /** The second look that explains why an UPDATE matched no row. */
  function Explanation(products: map<Id, Product>, merchant: string, id: Id, u: Update): UpdateError {
    if !Owned(products, merchant, id) then NotFound
    else if products[id].archived then Archived
    else if u.locked.Some? && products[id].firstPurchasedAt.Some? then FieldsLocked
    else NotFound
  }

  function DoExplainEdit(s: Shop, eid: Id): Shop {
    if eid !in s.edits || !s.edits[eid].missed then s
    else
      var e := s.edits[eid];
      EditDone(s, eid, Some(Explanation(s.products, e.merchantId, e.id, e.update)))
  }

  function DoSetArchived(s: Shop, merchant: string, id: Id, archived: bool): Shop {
    if !Owned(s.products, merchant, id) || id in s.locks then s
    else s.(products := s.products[id := s.products[id].(archived := archived)])
  }

  function DoMarkAlone(s: Shop, merchant: string, id: Id, now: int): Shop {
    if !Owned(s.products, merchant, id) || id in s.locks || s.products[id].firstPurchasedAt.Some? then s
    else s.(products := s.products[id := s.products[id].(firstPurchasedAt := Some(now))],
           markedAlone := s.markedAlone + {id})
  }

  function DoCreateProduct(s: Shop, id: Id, p: Product): Shop {
    if id in s.products || !CheckOk(p) || SlugTaken(s.products, id, p) || p.firstPurchasedAt.Some? then s
    else s.(products := s.products[id := p])
  }

  /** What the other operations may make of a stored transaction. */
  predicate Life(tx: Transaction, tx': Transaction) {
    SamePurchase(tx, tx') && (tx.status == Declined <==> tx'.status == Declined)
  }

  function DoMoveOn(s: Shop, txid: Id, tx: Transaction): Shop {
    if txid in s.txs && Life(s.txs[txid], tx) then s.(txs := s.txs[txid := tx]) else s
  }

  function DoAuthorizeOnly(s: Shop, txid: Id, tx: Transaction): Shop {
    if txid in s.txs || IdInFlight(s, txid) || tx.purchaseKey != "" || tx.productId.Some? then s
    else s.(txs := s.txs[txid := tx])
  }

  function Step(s: Shop, e: Event): Shop {
    match e
    case Begin(cid, req, found) => DoBegin(s, cid, req, found)
    case Load(cid) => DoLoad(s, cid)
    case AskBank(cid, verdict) => DoAskBank(s, cid, verdict)
    case Insert(cid, txid) => DoInsert(s, cid, txid)
    case Mark(cid, now) => DoMark(s, cid, now)
    case Commit(cid) => DoCommit(s, cid)
    case StartCapture(cid, ok) => DoStartCapture(s, cid, ok)
    case Resolve(cid, found) => DoResolve(s, cid, found)
    case Drop(cid) => DoDrop(s, cid)
    case ReadEdit(eid, merchant, id, req) => DoReadEdit(s, eid, merchant, id, req)
    case WriteEdit(eid) => DoWriteEdit(s, eid)
    case ExplainEdit(eid) => DoExplainEdit(s, eid)
    case SetArchived(merchant, id, archived) => DoSetArchived(s, merchant, id, archived)
    case MarkAlone(merchant, id, now) => DoMarkAlone(s, merchant, id, now)
    case CreateProduct(id, p) => DoCreateProduct(s, id, p)
    case MoveOn(txid, tx) => DoMoveOn(s, txid, tx)
    case AuthorizeOnly(txid, tx) => DoAuthorizeOnly(s, txid, tx)
  }

  function Run(s: Shop, es: seq<Event>): Shop {
    if es == [] then s else Step(Run(s, es[..|es| - 1]), es[|es| - 1])
  }
}
