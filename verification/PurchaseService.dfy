/** The purchase composition and the product update, statement by statement, against a database
    that other purchases, edits and the rest of the provider use at the same time. */
module PurchaseService {
  import opened Base
  import opened Transactions
  import opened Catalog
  import opened Shop
  import opened ShopProofs
  import opened ShopTheorems
  import ShopCalls
  import opened ShopEdits
  import ShopCatalog
  import Book
  import Ledgers = Database
  import Silvergate = SilvergateService

  datatype Owner = Caller(cid: Id) | Editor(eid: Id) | Someone

  function OwnerOf(e: Event): Owner {
    match e
    case Begin(cid, _, _) => Caller(cid)
    case Load(cid) => Caller(cid)
    case AskBank(cid, _) => Caller(cid)
    case Insert(cid, _) => Caller(cid)
    case Mark(cid, _) => Caller(cid)
    case Commit(cid) => Caller(cid)
    case StartCapture(cid, _) => Caller(cid)
    case Resolve(cid, _) => Caller(cid)
    case Drop(cid) => Caller(cid)
    case ReadEdit(eid, _, _, _) => Editor(eid)
    case WriteEdit(eid) => Editor(eid)
    case ExplainEdit(eid) => Editor(eid)
    case _ => Someone
  }

  /** What event `e`, if it belongs to `who`, added to the answers. */
  function Appended(s: Shop, s': Shop, e: Event, who: Owner): (seq<Answer>, seq<EditAnswer>) {
    if OwnerOf(e) != who || |s.answers| > |s'.answers| || |s.editAnswers| > |s'.editAnswers| then ([], [])
    else (s'.answers[|s.answers|..], s'.editAnswers[|s.editAnswers|..])
  }

  /** All answers the events of one program gave in the run `es`. */
  function Recorded(es: seq<Event>, who: Owner): (seq<Answer>, seq<EditAnswer>) {
    if es == [] then ([], [])
    else
      var before := Run(INIT, es[..|es| - 1]);
      var earlier := Recorded(es[..|es| - 1], who);
      var new_ := Appended(before, Step(before, es[|es| - 1]), es[|es| - 1], who);
      (earlier.0 + new_.0, earlier.1 + new_.1)
  }

  predicate Untouched(s: Shop, s': Shop, who: Owner) {
    match who
    case Caller(cid) => SameCall(s, s', cid)
    case Editor(eid) => (eid in s.edits <==> eid in s'.edits) && (eid in s.edits ==> s'.edits[eid] == s.edits[eid])
    case Someone => true
  }

  lemma {:induction false} EditorUntouched(s: Shop, e: Event, eid: Id)
    requires !IsCall(e) && OwnerOf(e) != Editor(eid)
    ensures Untouched(s, Step(s, e), Editor(eid))
  {
    match e
    case ReadEdit(_, _, _, _) =>
    case WriteEdit(_) =>
    case ExplainEdit(_) =>
    case _ =>
  }

  /** Nobody but its owner touches the state of a program. */
  lemma OthersKeepOut(s: Shop, e: Event, who: Owner)
    requires OwnerOf(e) != who
    ensures Untouched(s, Step(s, e), who)
  {
    match who
    case Caller(cid) => OthersLeaveCall(s, e, cid);
    case Editor(eid) => if IsCall(e) { CallsLeaveEdits(s, e); } else { EditorUntouched(s, e, eid); }
    case Someone =>
  }

  lemma {:induction false} OneMore(es: seq<Event>, e: Event, who: Owner)
    ensures Run(INIT, es + [e]) == Step(Run(INIT, es), e)
    ensures var s := Run(INIT, es); var new_ := Appended(s, Step(s, e), e, who);
      Recorded(es + [e], who) == (Recorded(es, who).0 + new_.0, Recorded(es, who).1 + new_.1)
  {
    assert (es + [e])[..|es|] == es;
  }

  lemma {:induction false} NotMine(es: seq<Event>, e: Event, who: Owner)
    requires OwnerOf(e) != who
    ensures Run(INIT, es + [e]) == Step(Run(INIT, es), e) && Recorded(es + [e], who) == Recorded(es, who)
  {
    assert (es + [e])[..|es|] == es;
    var earlier := Recorded(es, who);
    assert earlier.0 + [] == earlier.0 && earlier.1 + [] == earlier.1;
  }

  // What the last statement of a call leads to.

  lemma CommitDecides(s: Shop, cid: Id)
    requires cid in s.calls && ReadyToCommit(s.calls[cid].stage)
    ensures var s', st := DoCommit(s, cid), s.calls[cid].stage;
      && s'.txs == s.txs[st.txid := st.row]
      && s'.products == StampProduct(s.products, s.calls[cid].req.productId, MarkedAt(st))
      && s'.locks == Released(s, cid).locks && s'.editAnswers == s.editAnswers
  {}

  lemma CommitAnswersOrGoesOn(s: Shop, cid: Id)
    requires cid in s.calls && ReadyToCommit(s.calls[cid].stage)
    ensures var s', st := DoCommit(s, cid), s.calls[cid].stage;
      if st.row.status == Authorized then
           s'.answers == s.answers && s'.calls == s.calls[cid := s.calls[cid].(stage := Stored(st.txid, st.row))]
         else
           && s'.calls == s.calls - {cid}
           && s'.answers == s.answers + [Answer(s.calls[cid].req,
                  Success(ResponseFromTx(st.txid, st.row, s.calls[cid].req.productId)))]
  {}

  lemma MarkDecides(s: Shop, cid: Id, now: int)
    requires cid in s.calls && s.calls[cid].stage.Inserted? && s.calls[cid].stage.row.status == Authorized
    ensures var s', c := DoMark(s, cid, now), s.calls[cid]; var pid := c.req.productId;
      && s'.(calls := s.calls, answers := s.answers, locks := s.locks) == s
      && if !Owned(s.products, c.req.merchantId, pid) then
           s'.calls == s.calls - {cid} && s'.answers == s.answers + [Answer(c.req, ProductNotFound)]
           && s'.locks == s.locks
         else if s.products[pid].firstPurchasedAt.Some? then
           && s'.calls == s.calls[cid := c.(stage := Marked(c.stage.txid, c.stage.row, c.stage.priced, None))]
           && s'.answers == s.answers && s'.locks == s.locks
         else pid !in s.locks ==>
           && s'.calls == s.calls[cid := c.(stage := Marked(c.stage.txid, c.stage.row, c.stage.priced, Some(now)))]
           && s'.answers == s.answers && s'.locks == s.locks[pid := cid]
  {}

  lemma BeginDecides(s: Shop, cid: Id, req: Request, found: Id)
    requires cid !in s.calls
    requires req.key == "" || Finds(s.txs, req.merchantId, req.key, found)
      || !PurchaseKeyUsed(s.txs, req.merchantId, req.key)
    ensures var s' := DoBegin(s, cid, req, found);
      && s'.(calls := s.calls, answers := s.answers) == s
      && if req.key == "" then s'.calls == s.calls && s'.answers == s.answers + [Answer(req, Failed)]
         else if Finds(s.txs, req.merchantId, req.key, found) then
           s'.calls == s.calls && s'.answers == s.answers + [Answer(req, Replay(found, s.txs[found], req))]
         else s'.calls == s.calls[cid := Call(req, Checked)] && s'.answers == s.answers
  {
    var c := Call(req, Checked);
    assert s.calls[cid := c] - {cid} == s.calls;
  }

  lemma ReadDecides(s: Shop, eid: Id, merchant: string, id: Id, req: UpdateRequest)
    requires eid !in s.edits
    ensures var s' := DoReadEdit(s, eid, merchant, id, req);
      && s'.(edits := s.edits, editAnswers := s.editAnswers) == s
      && if Owned(s.products, merchant, id) && NewUpdate(req, s.products[id]).Ok? then
           && s'.editAnswers == s.editAnswers
           && s'.edits == s.edits[eid :=
                Edit(merchant, id, req, s.products[id], NewUpdate(req, s.products[id]).update, false)]
         else
           s'.editAnswers == s.editAnswers + [EditAnswer(id, req,
             Some(if !Owned(s.products, merchant, id) then NotFound else NewUpdate(req, s.products[id]).error))]
  {}

  lemma WriteDecides(s: Shop, eid: Id)
    requires eid in s.edits && !s.edits[eid].missed && s.edits[eid].id !in s.locks
    ensures var s', e := DoWriteEdit(s, eid), s.edits[eid];
      var o := GuardedWrite(s.products, e.merchantId, e.id, e.update);
      && s'.products == (if o.Hit? then s.products[e.id := o.row] else s.products)
      && s'.txs == s.txs && s'.locks == s.locks && s'.answers == s.answers
      && s'.edits == (if o.Miss? then s.edits[eid := e.(missed := true)] else s.edits - {eid})
      && s'.editAnswers == s.editAnswers
           + (if o.Miss? then [] else [EditAnswer(e.id, e.req, if o.Hit? then None else Some(o.error))])
  {
    var e := s.edits[eid];
    match GuardedWrite(s.products, e.merchantId, e.id, e.update)
    case Miss =>
    case Refused(_) =>
    case Hit(_) =>
  }

  lemma DropDecides(s: Shop, cid: Id)
    requires cid in s.calls
    ensures var s' := DoDrop(s, cid);
      && s'.calls == s.calls - {cid} && s'.answers == s.answers + [Answer(s.calls[cid].req, Failed)]
      && s' == s.(calls := s'.calls, answers := s'.answers, locks := Released(s, cid).locks)
  {}

  /** A call that lost its race finds the winner in any state the machine can reach. */
  lemma {:induction false} WinnerIsThere(es: seq<Event>, cid: Id)
    requires cid in Run(INIT, es).calls && Run(INIT, es).calls[cid].stage.Racing?
    ensures var s := Run(INIT, es);
      PurchaseKeysUnique(s.txs)
      && PurchaseKeyUsed(s.txs, s.calls[cid].req.merchantId, s.calls[cid].req.key)
  {
    ShopProofs.RunsSound(es);
    OneTransactionPerKey(es);
    assert CallOk(Run(INIT, es), cid, Run(INIT, es).calls[cid]);
  }

  lemma LastAnswerTells(earlier: seq<EditAnswer>, a: EditAnswer, b: EditAnswer)
    ensures earlier + [a] == earlier + [b] <==> a == b
    ensures earlier != earlier + [b]
  {
    assert (earlier + [a])[|earlier|] == a && (earlier + [b])[|earlier|] == b;
  }

  datatype InsertResult = InsertedNow | KeyExists | InsertWaits

  datatype MarkResult = MarkedNow | MarkedBefore | NoProduct | MarkWaits

  datatype UpdateResult = Outcome(outcome: WriteOutcome) | UpdateWaits

  /** What the caller of a product update is told; `Broken` is the error of a statement that failed. */
  datatype UpdateAnswer = Updated(product: Product) | Rejected(error: UpdateError) | Broken

  /** A product that was there stays there. */
  lemma {:induction false} ProductsStay(es: seq<Event>, es': seq<Event>, merchant: string, id: Id)
    requires es <= es' && Owned(Run(INIT, es).products, merchant, id)
    ensures Owned(Run(INIT, es').products, merchant, id)
  {
    assert es' == es + es'[|es|..];
    ShopCatalog.FrozenForever(es, es'[|es|..]);
    assert ProductKept(Run(INIT, es).products[id], Run(INIT, es').products[id]);
  }

  class ShopDb {
    var products: map<Id, Product>
    var txs: map<Id, Transaction>
    var locks: map<Id, Id>
    // The step machine this database is proved against, and everything that has happened to it.
    var shop: Shop
    var trace: seq<Event>
    // What other clients are going to do, in bursts between the statements of one program.
    var schedule: seq<seq<Event>>

    predicate Agrees(s: Shop)
      reads this
    {
      products == s.products && txs == s.txs && locks == s.locks
    }

    ghost predicate Valid()
      reads this
    {
      Agrees(shop) && shop == Run(INIT, trace)
    }

    constructor (schedule: seq<seq<Event>>)
      ensures Valid() && trace == [] && shop == INIT && this.schedule == schedule
    {
      products, txs, locks := map[], map[], map[];
      shop, trace := INIT, [];
      this.schedule := schedule;
    }

    /** Advances the machine by the event the tables have already gone through. */
    method Did(e: Event)
      requires shop == Run(INIT, trace) && Agrees(Step(shop, e))
      modifies this`shop, this`trace
      ensures Valid() && trace == old(trace) + [e] && shop == Step(old(shop), e)
      ensures Recorded(trace, OwnerOf(e)).0
          == Recorded(old(trace), OwnerOf(e)).0 + Appended(old(shop), shop, e, OwnerOf(e)).0
      ensures Recorded(trace, OwnerOf(e)).1
          == Recorded(old(trace), OwnerOf(e)).1 + Appended(old(shop), shop, e, OwnerOf(e)).1
    {
      OneMore(trace, e, OwnerOf(e));
      shop, trace := Step(shop, e), trace + [e];
    }

    /** A step of the edit `eid`, and the answers it puts on record. */
    method DidEdit(e: Event, eid: Id, given: seq<EditAnswer>)
      requires OwnerOf(e) == Editor(eid) && shop == Run(INIT, trace) && Agrees(Step(shop, e))
      requires Step(shop, e).editAnswers == shop.editAnswers + given && Step(shop, e).answers == shop.answers
      modifies this`shop, this`trace
      ensures Valid() && trace == old(trace) + [e] && shop == Step(old(shop), e)
      ensures Recorded(trace, Editor(eid)).1 == Recorded(old(trace), Editor(eid)).1 + given
    {
      Did(e);
    }

    /** A step of the purchase call `cid`, and the answers it puts on record. */
    method DidCall(e: Event, cid: Id, given: seq<Answer>)
      requires OwnerOf(e) == Caller(cid) && shop == Run(INIT, trace) && Agrees(Step(shop, e))
      requires Step(shop, e).answers == shop.answers + given && Step(shop, e).editAnswers == shop.editAnswers
      modifies this`shop, this`trace
      ensures Valid() && trace == old(trace) + [e] && shop == Step(old(shop), e)
      ensures Recorded(trace, Caller(cid)).0 == Recorded(old(trace), Caller(cid)).0 + given
    {
      Did(e);
    }

    /** One burst of other clients' events. */
    method Others(who: Owner)
      requires Valid()
      modifies this
      ensures Valid() && old(trace) <= trace
      ensures Untouched(old(shop), shop, who) && Recorded(trace, who) == Recorded(old(trace), who)
      ensures old(schedule) == [] ==> schedule == [] && shop == old(shop) && trace == old(trace)
    {
      if schedule == [] { return; }
      var burst := schedule[0];
      schedule := schedule[1..];
      var i := 0;
      while i < |burst|
        invariant Valid() && old(trace) <= trace
        invariant Untouched(old(shop), shop, who) && Recorded(trace, who) == Recorded(old(trace), who)
      {
        if OwnerOf(burst[i]) != who { Other(burst[i], who); }
        i := i + 1;
      }
    }

    method Other(e: Event, who: Owner)
      requires Valid() && OwnerOf(e) != who
      modifies this`products, this`txs, this`locks, this`shop, this`trace
      ensures Valid() && trace == old(trace) + [e]
      ensures Untouched(old(shop), shop, who) && Recorded(trace, who) == Recorded(old(trace), who)
    {
      OthersKeepOut(shop, e, who);
      NotMine(trace, e, who);
      shop, trace := Step(shop, e), trace + [e];
      products, txs, locks := shop.products, shop.txs, shop.locks;
    }

    // Statements.

    method GetByPurchaseIdempotencyKey(merchant: string, key: string) returns (id: Option<Id>)
      requires PurchaseKeysUnique(txs)
      ensures if id.Some? then Finds(txs, merchant, key, id.value) else !PurchaseKeyUsed(txs, merchant, key)
    {
      if !PurchaseKeyUsed(txs, merchant, key) { return None; }
      forall a, b | Finds(txs, merchant, key, a) && Finds(txs, merchant, key, b)
        ensures a == b
      {
        assert SamePurchaseKey(txs[a], txs[b]);
      }
      var found :| found in txs && HasPurchaseKey(txs[found], merchant, key);
      return Some(found);
    }

    method GetProduct(merchant: string, id: Id) returns (p: Option<Product>)
      ensures p == if Owned(products, merchant, id) then Some(products[id]) else None
    {
      p := if Owned(products, merchant, id) then Some(products[id]) else None;
    }

    /** INSERT INTO transactions; the row stays with its database transaction until the commit. */
    method InsertTransaction(row: Transaction) returns (res: InsertResult)
      ensures res == if KeyInFlight(shop, row.merchantId, row.purchaseKey) then InsertWaits
                     else if PurchaseKeyUsed(txs, row.merchantId, row.purchaseKey) then KeyExists else InsertedNow
    {
      if KeyInFlight(shop, row.merchantId, row.purchaseKey) { return InsertWaits; }
      res := if PurchaseKeyUsed(txs, row.merchantId, row.purchaseKey) then KeyExists else InsertedNow;
    }

    /** UPDATE products SET first_purchased_at = now() WHERE ... AND first_purchased_at IS NULL, and the look
        that follows when it matched no row. */
    method MarkPurchased(cid: Id, merchant: string, id: Id) returns (res: MarkResult)
      modifies this`locks
      ensures res == if !Owned(products, merchant, id) then NoProduct
                     else if products[id].firstPurchasedAt.Some? then MarkedBefore
                     else if id in old(locks) then MarkWaits else MarkedNow
      ensures locks == if res == MarkedNow then old(locks)[id := cid] else old(locks)
    {
      if !Owned(products, merchant, id) { return NoProduct; }
      if products[id].firstPurchasedAt.Some? { return MarkedBefore; }
      if id in locks { return MarkWaits; }
      locks := locks[id := cid];
      return MarkedNow;
    }

    /** COMMIT of a database transaction that inserted a row and may have stamped a product. */
    method CommitPurchase(txid: Id, row: Transaction, id: Id, at: Option<int>)
      modifies this`products, this`txs, this`locks
      ensures txs == old(txs)[txid := row]
      ensures products == StampProduct(old(products), id, at)
      ensures locks == if at.Some? then old(locks) - {id} else old(locks)
    {
      txs := txs[txid := row];
      if at.Some? {
        if id in products { products := products[id := products[id].(firstPurchasedAt := at)]; }
        locks := locks - {id};
      }
    }

    method Unlock(id: Id)
      modifies this`locks
      ensures locks == old(locks) - {id}
    {
      locks := locks - {id};
    }

    /** UPDATE products SET ... WHERE merchant_id, id, status = active [AND first_purchased_at IS NULL]. */
    method UpdateProduct(merchant: string, id: Id, u: Update) returns (res: UpdateResult)
      modifies this`products
      ensures res == if id in locks then UpdateWaits else Outcome(GuardedWrite(old(products), merchant, id, u))
      ensures products ==
        if res.Outcome? && res.outcome.Hit? then old(products)[id := res.outcome.row] else old(products)
    {
      if id in locks { return UpdateWaits; }
      var outcome := GuardedWrite(products, merchant, id, u);
      if outcome.Hit? { products := products[id := outcome.row]; }
      return Outcome(outcome);
    }
  }

  /** A transaction is stored under the key, and the request is answered from it. */
  predicate AnsweredFromTable(txs: map<Id, Transaction>, req: Request, reply: Reply) {
    exists id :: id in txs && StoredUnder(txs, id, req.merchantId, req.key)
              && ShopCalls.AnsweredFrom(id, txs[id], req, reply)
  }

  /** The capture a purchase asks for has a key of its own. */
  function CaptureOf(txid: Id, amount: int): Book.Op {
    Book.Capture(txid, txid + "-cap", amount)
  }

  /** What a purchase answers after it has asked the ledger for a capture, with this on the ledger's record. */
  predicate TellsCapture(reply: Reply, txid: Id, asked: seq<Book.Entry>) {
    && |asked| == 1 && (reply.Success? || reply.PartiallyApplied?) && reply.response.transactionId == txid
    && asked[0].op == CaptureOf(txid, reply.response.amount) && (reply.Success? <==> asked[0].reply == Book.Accepted)
  }

  class Service {
    const db: ShopDb
    const capturer: Silvergate.Service
    const faults: Oracle

    constructor (db: ShopDb, capturer: Silvergate.Service, faults: Oracle)
      ensures this.db == db && this.capturer == capturer && this.faults == faults
    {
      this.db, this.capturer, this.faults := db, capturer, faults;
    }

    /** The ledger is ready for a capture in session `sid`. */
    ghost predicate LedgerReady(sid: Id)
      reads capturer.db
    {
      capturer.db.Valid() && sid !in capturer.db.ledger.sessions
    }

    /** This is what the ledger has put on record for session `sid` meanwhile. */
    twostate predicate Asked(sid: Id, new asked: seq<Book.Entry>)
      reads capturer.db
    {
      && LedgerReady(sid) && old(capturer.db.trace) <= capturer.db.trace
      && Ledgers.Recorded(capturer.db.trace, Ledgers.Caller(sid))
           == Ledgers.Recorded(old(capturer.db.trace), Ledgers.Caller(sid)) + asked
    }

    /** The call is over, and its caller got the one answer on record for it. */
    twostate predicate Replied(cid: Id, req: Request, reply: Reply)
      reads db
    {
      && db.Valid() && cid !in db.shop.calls && old(db.trace) <= db.trace
      && Recorded(db.trace, Caller(cid)).0 == Recorded(old(db.trace), Caller(cid)).0 + [Answer(req, reply)]
    }

    /** A statement went through and the call is at `stage`; or the call is over with this reply. */
    twostate predicate GoesOn(cid: Id, new over: Option<Reply>, new stage: Stage)
      requires cid in old(db.shop).calls
      reads db
    {
      var c := old(db.shop).calls[cid];
      && db.Valid() && old(db.trace) <= db.trace
      && if over.None? then
           && cid in db.shop.calls && db.shop.calls[cid] == c.(stage := stage)
           && Recorded(db.trace, Caller(cid)).0 == Recorded(old(db.trace), Caller(cid)).0
         else
           && cid !in db.shop.calls
           && Recorded(db.trace, Caller(cid)).0 == Recorded(old(db.trace), Caller(cid)).0 + [Answer(c.req, over.value)]
    }

    /** Lets other clients in before the next statement, which may then fail and end the call. */
    method Pause(cid: Id) returns (over: Option<Reply>)
      requires db.Valid() && cid in db.shop.calls
      modifies db, faults
      ensures GoesOn(cid, over, old(db.shop).calls[cid].stage) && (over.Some? ==> over.value == Failed)
    {
      db.Others(Caller(cid));
      var broken := faults.Next();
      if broken { GiveUp(cid); return Some(Failed); }
      return None;
    }

    method GiveUp(cid: Id)
      requires db.Valid() && cid in db.shop.calls
      modifies db
      ensures Replied(cid, old(db.shop).calls[cid].req, Failed)
    {
      var c := db.shop.calls[cid];
      DropDecides(db.shop, cid);
      if c.stage.Marked? && c.stage.at.Some? { db.Unlock(c.req.productId); }
      db.DidCall(Drop(cid), cid, [Answer(c.req, Failed)]);
    }

    /** Replays a stored purchase, or loads the product, asks the bank, stores the row and marks the product in one
        database transaction, and asks the ledger for the capture outside it. The caller gets the one answer on record;
        if the ledger has decided on a capture for this call, the answer is Success exactly when it accepted it. */
    method Purchase(cid: Id, sid: Id, req: Request, verdict: Option<Verdict>, txid: Id, now: int)
      returns (reply: Reply, ghost asked: seq<Book.Entry>)
      requires db.Valid() && cid !in db.shop.calls && LedgerReady(sid)
      modifies db, faults, capturer.db, capturer.faults
      ensures Replied(cid, req, reply)
      ensures Asked(sid, asked) && (asked != [] ==> TellsCapture(reply, txid, asked))
    {
      asked := [];
      var over := CheckIdempotency(cid, req);
      if over.Some? { return over.value, []; }
      reply, asked := PurchaseFresh(cid, sid, req, verdict, txid, now);
    }

    method CheckIdempotency(cid: Id, req: Request) returns (over: Option<Reply>)
      requires db.Valid() && cid !in db.shop.calls
      modifies db, faults
      ensures if over.Some? then Replied(cid, req, over.value) else
        && db.Valid() && old(db.trace) <= db.trace && cid in db.shop.calls && db.shop.calls[cid] == Call(req, Checked)
        && Recorded(db.trace, Caller(cid)).0 == Recorded(old(db.trace), Caller(cid)).0
      ensures over.None? ==>
        req.key != "" && forall id :: id in old(db.txs) ==> !StoredUnder(old(db.txs), id, req.merchantId, req.key)
      ensures over.Some? ==>
        if req.key == "" then over.value == Failed else AnsweredFromTable(old(db.txs), req, over.value)
    {
      OneTransactionPerKey(db.trace);
      if req.key == "" {
        RefuseEmptyKey(cid, req);
        return Some(Failed);
      }
      var existing := db.GetByPurchaseIdempotencyKey(req.merchantId, req.key);
      if existing.Some? { ShopCalls.ReplayMeans(existing.value, db.txs[existing.value], req); }
      if existing.None? {
        Admit(cid, req);
        return None;
      }
      var reply := ReplayStored(cid, req, existing.value);
      return Some(reply);
    }

    method RefuseEmptyKey(cid: Id, req: Request)
      requires db.Valid() && cid !in db.shop.calls && req.key == ""
      modifies db
      ensures Replied(cid, req, Failed)
    {
      BeginDecides(db.shop, cid, req, "");
      db.Did(Begin(cid, req, ""));
    }

    method Admit(cid: Id, req: Request)
      requires db.Valid() && cid !in db.shop.calls && req.key != ""
      requires !PurchaseKeyUsed(db.txs, req.merchantId, req.key)
      modifies db
      ensures db.Valid() && old(db.trace) <= db.trace && cid in db.shop.calls
      ensures db.shop.calls[cid] == Call(req, Checked)
      ensures Recorded(db.trace, Caller(cid)).0 == Recorded(old(db.trace), Caller(cid)).0
    {
      BeginDecides(db.shop, cid, req, "");
      db.Did(Begin(cid, req, ""));
    }

    method ReplayStored(cid: Id, req: Request, stored: Id) returns (reply: Reply)
      requires db.Valid() && cid !in db.shop.calls && req.key != ""
      requires Finds(db.txs, req.merchantId, req.key, stored)
      modifies db
      ensures Replied(cid, req, reply) && reply == Replay(stored, old(db.txs)[stored], req)
    {
      reply := Replay(stored, db.txs[stored], req);
      BeginDecides(db.shop, cid, req, stored);
      db.Did(Begin(cid, req, stored));
    }

    method PurchaseFresh(cid: Id, sid: Id, req: Request, verdict: Option<Verdict>, txid: Id, now: int)
      returns (reply: Reply, ghost asked: seq<Book.Entry>)
      requires db.Valid() && cid in db.shop.calls && db.shop.calls[cid] == Call(req, Checked) && LedgerReady(sid)
      modifies db, faults, capturer.db, capturer.faults
      ensures Replied(cid, req, reply)
      ensures Asked(sid, asked) && (asked != [] ==> TellsCapture(reply, txid, asked))
    {
      asked := [];
      var over, row, priced := Authorize(cid, req, verdict);
      if over.Some? { return over.value, []; }
      reply, asked := StoreAndFinish(cid, sid, req, row, txid, priced, now);
    }

    method StoreAndFinish(cid: Id, sid: Id, req: Request, row: Transaction, txid: Id, priced: bool, now: int)
      returns (reply: Reply, ghost asked: seq<Book.Entry>)
      requires db.Valid() && cid in db.shop.calls && db.shop.calls[cid] == Call(req, Decided(row, priced))
      requires LedgerReady(sid)
      modifies db, faults, capturer.db, capturer.faults
      ensures Replied(cid, req, reply)
      ensures Asked(sid, asked) && (asked != [] ==> TellsCapture(reply, txid, asked))
    {
      asked := [];
      var over, res := Insert(cid, txid, row, priced);
      if over.Some? { return over.value, []; }
      if res == KeyExists {
        reply := ResolveRace(cid, req);
        return;
      }
      reply, asked := Finish(cid, sid, req, row, txid, priced, now);
    }

    method Authorize(cid: Id, req: Request, verdict: Option<Verdict>)
      returns (over: Option<Reply>, row: Transaction, priced: bool)
      requires db.Valid() && cid in db.shop.calls && db.shop.calls[cid] == Call(req, Checked)
      modifies db, faults
      ensures GoesOn(cid, over, Decided(row, priced))
    {
      row := NewTransaction(AuthFor(req, 0, ""), Approve);
      priced := false;
      over := Pause(cid);
      if over.Some? { return; }
      var p;
      over, p := LoadProduct(cid, req);
      if over.Some? { return; }
      priced := p.firstPurchasedAt.Some?;
      over, row := AskAcquirer(cid, req, p, verdict);
    }

    method LoadProduct(cid: Id, req: Request) returns (over: Option<Reply>, p: Product)
      requires db.Valid() && cid in db.shop.calls && db.shop.calls[cid] == Call(req, Checked)
      modifies db
      ensures GoesOn(cid, over, Loaded(p.price, p.currency, p.firstPurchasedAt.Some?))
    {
      var found := db.GetProduct(req.merchantId, req.productId);
      db.Did(Load(cid));
      if found.None? { return Some(ProductNotFound), Product("", None, "", "", 0, "", false, None); }
      p := found.value;
      over := if p.archived then Some(ProductArchived) else None;
    }

    method AskAcquirer(cid: Id, req: Request, p: Product, verdict: Option<Verdict>)
      returns (over: Option<Reply>, row: Transaction)
      requires db.Valid() && cid in db.shop.calls
      requires db.shop.calls[cid] == Call(req, Loaded(p.price, p.currency, p.firstPurchasedAt.Some?))
      modifies db
      ensures GoesOn(cid, over, Decided(row, p.firstPurchasedAt.Some?))
    {
      db.Did(AskBank(cid, verdict));
      if verdict.None? { return Some(Failed), NewTransaction(AuthFor(req, 0, ""), Approve); }
      return None, NewTransaction(AuthFor(req, p.price, p.currency), verdict.value);
    }

    method Insert(cid: Id, txid: Id, row: Transaction, priced: bool) returns (over: Option<Reply>, res: InsertResult)
      requires db.Valid() && cid in db.shop.calls && db.shop.calls[cid].stage == Decided(row, priced)
      modifies db, faults
      ensures GoesOn(cid, over, if res == KeyExists then Racing else Inserted(txid, row, priced))
    {
      res := InsertWaits;
      over := Pause(cid);
      if over.Some? { return; }
      if txid in db.txs || IdInFlight(db.shop, txid) { GiveUp(cid); return Some(Failed), res; }
      res := db.InsertTransaction(row);
      if res == InsertWaits { GiveUp(cid); return Some(Failed), res; }
      db.Did(Event.Insert(cid, txid));
    }

    /** The unique index refused the insert: whoever won is there to be read. */
    method ResolveRace(cid: Id, req: Request) returns (reply: Reply)
      requires db.Valid() && cid in db.shop.calls && db.shop.calls[cid] == Call(req, Racing)
      modifies db, faults
      ensures Replied(cid, req, reply) && (reply == Failed || AnsweredFromTable(db.txs, req, reply))
    {
      var over := Pause(cid);
      if over.Some? { return Failed; }
      reply := ResolveNow(cid, req);
    }

    method ResolveNow(cid: Id, req: Request) returns (reply: Reply)
      requires db.Valid() && cid in db.shop.calls && db.shop.calls[cid] == Call(req, Racing)
      modifies db
      ensures Replied(cid, req, reply) && AnsweredFromTable(db.txs, req, reply)
    {
      WinnerIsThere(db.trace, cid);
      var winner := db.GetByPurchaseIdempotencyKey(req.merchantId, req.key);
      var tx := db.txs[winner.value];
      ShopCalls.ReplayMeans(winner.value, tx, req);
      db.Did(Resolve(cid, winner.value));
      return Replay(winner.value, tx, req);
    }

    method Finish(cid: Id, sid: Id, req: Request, row: Transaction, txid: Id, priced: bool, now: int)
      returns (reply: Reply, ghost asked: seq<Book.Entry>)
      requires db.Valid() && cid in db.shop.calls && db.shop.calls[cid] == Call(req, Inserted(txid, row, priced))
      requires LedgerReady(sid)
      modifies db, faults, capturer.db, capturer.faults
      ensures Replied(cid, req, reply)
      ensures Asked(sid, asked) && (asked != [] ==> TellsCapture(reply, txid, asked))
    {
      asked := [];
      if row.status != Authorized {
        reply := CommitDeclined(cid, req, row, txid);
        return;
      }
      var over, at := MarkProduct(cid, req, row, txid, priced, now);
      if over.Some? { return over.value, []; }
      over := CommitApproved(cid, req, row, txid, at);
      if over.Some? { return over.value, []; }
      reply, asked := Capture(cid, sid, req, row, txid);
    }

    method MarkProduct(cid: Id, req: Request, row: Transaction, txid: Id, priced: bool, now: int)
      returns (over: Option<Reply>, at: Option<int>)
      requires db.Valid() && cid in db.shop.calls && db.shop.calls[cid] == Call(req, Inserted(txid, row, priced))
      requires row.status == Authorized
      modifies db, faults
      ensures GoesOn(cid, over, Marked(txid, row, priced, at))
    {
      over := Pause(cid);
      if over.Some? { return over, None; }
      over, at := MarkNow(cid, req, row, txid, priced, now);
    }

    method MarkNow(cid: Id, req: Request, row: Transaction, txid: Id, priced: bool, now: int)
      returns (over: Option<Reply>, at: Option<int>)
      requires db.Valid() && cid in db.shop.calls && db.shop.calls[cid] == Call(req, Inserted(txid, row, priced))
      requires row.status == Authorized
      modifies db
      ensures GoesOn(cid, over, Marked(txid, row, priced, at))
    {
      at := None;
      MarkDecides(db.shop, cid, now);
      var res := db.MarkPurchased(cid, req.merchantId, req.productId);
      if res == MarkWaits { GiveUp(cid); return Some(Failed), at; }
      db.Did(Mark(cid, now));
      over := if res == NoProduct then Some(ProductNotFound) else None;
      at := if res == MarkedNow then Some(now) else None;
    }

    method CommitApproved(cid: Id, req: Request, row: Transaction, txid: Id, at: Option<int>)
      returns (over: Option<Reply>)
      requires db.Valid() && cid in db.shop.calls && db.shop.calls[cid].req == req && row.status == Authorized
      requires var st := db.shop.calls[cid].stage; st.Marked? && st.txid == txid && st.row == row && st.at == at
      modifies db, faults
      ensures GoesOn(cid, over, Stored(txid, row))
    {
      over := Pause(cid);
      if over.None? { CommitNow(cid, req, row, txid, at); }
    }

    method CommitNow(cid: Id, req: Request, row: Transaction, txid: Id, at: Option<int>)
      requires db.Valid() && cid in db.shop.calls && db.shop.calls[cid].req == req && row.status == Authorized
      requires var st := db.shop.calls[cid].stage; st.Marked? && st.txid == txid && st.row == row && st.at == at
      modifies db
      ensures GoesOn(cid, None, Stored(txid, row))
    {
      CommitDecides(db.shop, cid);
      CommitAnswersOrGoesOn(db.shop, cid);
      db.CommitPurchase(txid, row, req.productId, at);
      db.Did(Commit(cid));
    }

    method CommitDeclined(cid: Id, req: Request, row: Transaction, txid: Id) returns (reply: Reply)
      requires db.Valid() && cid in db.shop.calls && db.shop.calls[cid].req == req && row.status != Authorized
      requires var st := db.shop.calls[cid].stage; st.Inserted? && st.txid == txid && st.row == row
      modifies db, faults
      ensures Replied(cid, req, reply)
    {
      var over := Pause(cid);
      if over.Some? { return over.value; }
      reply := CommitDeclinedNow(cid, req, row, txid);
    }

    method CommitDeclinedNow(cid: Id, req: Request, row: Transaction, txid: Id) returns (reply: Reply)
      requires db.Valid() && cid in db.shop.calls && db.shop.calls[cid].req == req && row.status != Authorized
      requires var st := db.shop.calls[cid].stage; st.Inserted? && st.txid == txid && st.row == row
      modifies db
      ensures Replied(cid, req, reply)
    {
      CommitDecides(db.shop, cid);
      CommitAnswersOrGoesOn(db.shop, cid);
      db.CommitPurchase(txid, row, req.productId, None);
      db.Did(Commit(cid));
      return Success(ResponseFromTx(txid, row, req.productId));
    }

    /** The capture is a call of the ledger of its own; when it fails the purchase stays authorized. */
    method Capture(cid: Id, sid: Id, req: Request, row: Transaction, txid: Id)
      returns (reply: Reply, ghost asked: seq<Book.Entry>)
      requires db.Valid() && cid in db.shop.calls && db.shop.calls[cid] == Call(req, Stored(txid, row))
      requires LedgerReady(sid)
      modifies db, faults, capturer.db, capturer.faults
      ensures Replied(cid, req, reply) && Asked(sid, asked)
      ensures if asked != [] then TellsCapture(reply, txid, asked) else reply == Failed || reply.PartiallyApplied?
    {
      asked := [];
      var over := Pause(cid);
      if over.Some? { return over.value, []; }
      var answer := capturer.Capture(sid, txid, row.amount, txid + "-cap");
      asked := Silvergate.Told(answer, CaptureOf(txid, row.amount));
      reply := CaptureNow(cid, req, row, txid, answer == Silvergate.Verdict(Book.Accepted));
    }

    method CaptureNow(cid: Id, req: Request, row: Transaction, txid: Id, captured: bool) returns (reply: Reply)
      requires db.Valid() && cid in db.shop.calls && db.shop.calls[cid] == Call(req, Stored(txid, row))
      modifies db
      ensures Replied(cid, req, reply)
      ensures var response := ResponseFromTx(txid, row, req.productId);
        reply == if captured then Success(response) else PartiallyApplied(response.(status := Authorized))
    {
      db.Did(StartCapture(cid, captured));
      var response := ResponseFromTx(txid, row, req.productId);
      if captured { return Success(response); }
      return PartiallyApplied(response.(status := Authorized));
    }

    // Product updates.

    /** The edit got the one answer on record for it, or (`Broken`) a statement failed and it got none. */
    twostate predicate Edited(eid: Id, id: Id, req: UpdateRequest, new error: Option<UpdateError>, broken: bool)
      reads db
    {
      && db.Valid() && old(db.trace) <= db.trace
      && Recorded(db.trace, Editor(eid)).1
           == Recorded(old(db.trace), Editor(eid)).1 + (if broken then [] else [EditAnswer(id, req, error)])
    }

    /** The update was written. */
    twostate predicate Written(eid: Id, id: Id, req: UpdateRequest)
      reads db
    {
      Recorded(db.trace, Editor(eid)).1 == Recorded(old(db.trace), Editor(eid)).1 + [EditAnswer(id, req, None)]
    }

    /** An updated product was written, and is returned as it is now; a rejection is the answer on record; after a
        statement failed nothing is on record, or the write went through. */
    twostate predicate Answers(eid: Id, merchant: string, id: Id, req: UpdateRequest, new answer: UpdateAnswer)
      reads db
    {
      && db.Valid() && old(db.trace) <= db.trace
      && match answer
         case Updated(p) => Written(eid, id, req) && Owned(db.products, merchant, id) && db.products[id] == p
         case Rejected(error) => Edited(eid, id, req, Some(error), false)
         case Broken => Edited(eid, id, req, None, true) || Written(eid, id, req)
    }

    /** Nobody else does anything, and neither of the first `n` statements fails. */
    predicate Alone(id: Id, n: nat)
      reads db, faults
    {
      db.schedule == [] && id !in db.locks && forall i: nat :: i < n ==> !FaultAt(faults.answers, i)
    }

    /** Validates against a read, writes with a guard, and reads the row back; a write that matches no row is explained
        by a second read. An update that was written is answered with an error exactly when
        the third statement, the read
        that follows the write, fails. Undisturbed, the update is the atomic one. */
    method Update(eid: Id, merchant: string, id: Id, req: UpdateRequest) returns (answer: UpdateAnswer)
      requires db.Valid() && eid !in db.shop.edits
      modifies db, faults
      ensures Answers(eid, merchant, id, req, answer)
      ensures Written(eid, id, req) ==> (answer == Broken <==> FaultAt(old(faults.answers), 2))
      ensures old(Alone(id, 2)) ==>
        && db.products == AtomicUpdate(old(db.products), merchant, id, req).0
        && Edited(eid, id, req, AtomicUpdate(old(db.products), merchant, id, req).1, false)
    {
      ghost var earlier := Recorded(db.trace, Editor(eid)).1;
      var error, broken := ValidateAndWrite(eid, merchant, id, req);
      LastAnswerTells(earlier, EditAnswer(id, req, error), EditAnswer(id, req, None));
      if broken { return Broken; }
      if error.Some? { return Rejected(error.value); }
      answer := ReadBack(eid, merchant, id);
    }

    method ReadBack(eid: Id, merchant: string, id: Id) returns (answer: UpdateAnswer)
      requires db.Valid() && Owned(db.products, merchant, id)
      modifies db, faults
      ensures db.Valid() && old(db.trace) <= db.trace
      ensures Recorded(db.trace, Editor(eid)) == Recorded(old(db.trace), Editor(eid))
      ensures if FaultAt(old(faults.answers), 0) then answer == Broken
              else Owned(db.products, merchant, id) && answer == Updated(db.products[id])
      ensures old(db.schedule) == [] ==> db.products == old(db.products)
    {
      db.Others(Editor(eid));
      ProductsStay(old(db.trace), db.trace, merchant, id);
      var broken := faults.Next();
      if broken { return Broken; }
      var p := db.GetProduct(merchant, id);
      return Updated(p.value);
    }

    method ValidateAndWrite(eid: Id, merchant: string, id: Id, req: UpdateRequest)
      returns (error: Option<UpdateError>, broken: bool)
      requires db.Valid() && eid !in db.shop.edits
      modifies db, faults
      ensures Edited(eid, id, req, error, broken)
      ensures error.None? && !broken ==>
        Owned(db.products, merchant, id) && FaultAt(faults.answers, 0) == FaultAt(old(faults.answers), 2)
      ensures old(db.schedule) == [] ==> db.schedule == []
      ensures old(Alone(id, 2)) ==>
        !broken && (db.products, error) == AtomicUpdate(old(db.products), merchant, id, req)
    {
      broken := faults.Next();
      if broken { return None, broken; }
      var p, upd := Validate(eid, merchant, id, req);
      if upd.Err? { return Some(upd.error), broken; }
      error, broken := WriteUpdate(eid, merchant, id, req, p.value, upd.update);
    }

    method Validate(eid: Id, merchant: string, id: Id, req: UpdateRequest) returns (p: Option<Product>, upd: Validated)
      requires db.Valid() && eid !in db.shop.edits
      modifies db
      ensures db.schedule == old(db.schedule) && db.products == old(db.products) && db.locks == old(db.locks)
      ensures p == if Owned(db.products, merchant, id) then Some(db.products[id]) else None
      ensures upd == if p.Some? then NewUpdate(req, p.value) else Err(NotFound)
      ensures Edited(eid, id, req, if upd.Err? then Some(upd.error) else None, upd.Ok?)
      ensures upd.Ok? ==>
        eid in db.shop.edits && db.shop.edits[eid] == Edit(merchant, id, req, p.value, upd.update, false)
    {
      p := db.GetProduct(merchant, id);
      ReadDecides(db.shop, eid, merchant, id, req);
      db.Did(ReadEdit(eid, merchant, id, req));
      upd := if p.None? then Err(NotFound) else NewUpdate(req, p.value);
    }

    method WriteUpdate(eid: Id, merchant: string, id: Id, req: UpdateRequest, seen: Product, u: Update)
      returns (error: Option<UpdateError>, broken: bool)
      requires db.Valid() && eid in db.shop.edits && db.shop.edits[eid] == Edit(merchant, id, req, seen, u, false)
      requires NewUpdate(req, seen) == Ok(u)
      modifies db, faults
      ensures Edited(eid, id, req, error, broken)
      ensures error.None? && !broken ==>
        Owned(db.products, merchant, id) && FaultAt(faults.answers, 0) == FaultAt(old(faults.answers), 1)
      ensures old(db.schedule) == [] ==> db.schedule == []
      ensures old(Alone(id, 1) && Owned(db.products, merchant, id) && db.products[id] == seen) ==>
        !broken && (db.products, error) == AtomicUpdate(old(db.products), merchant, id, req)
    {
      db.Others(Editor(eid));
      broken := faults.Next();
      if broken { return None, broken; }
      error, broken := WriteOrExplain(eid, merchant, id, req, seen, u);
    }

    method WriteOrExplain(eid: Id, merchant: string, id: Id, req: UpdateRequest, seen: Product, u: Update)
      returns (error: Option<UpdateError>, broken: bool)
      requires db.Valid() && eid in db.shop.edits && db.shop.edits[eid] == Edit(merchant, id, req, seen, u, false)
      requires NewUpdate(req, seen) == Ok(u)
      modifies db, faults
      ensures Edited(eid, id, req, error, broken)
      ensures error.None? && !broken ==> Owned(db.products, merchant, id) && faults.answers == old(faults.answers)
      ensures old(db.schedule) == [] ==> db.schedule == []
      ensures old(id !in db.locks && Owned(db.products, merchant, id) && db.products[id] == seen) ==>
        !broken && (db.products, error) == AtomicUpdate(old(db.products), merchant, id, req)
    {
      if Owned(db.products, merchant, id) && db.products[id] == seen {
        GuardIsRevalidation(req, seen, seen);
        FreshWriteIsAtomic(db.products, Edit(merchant, id, req, seen, u, false));
      }
      var missed;
      error, broken, missed := WriteEditNow(eid, merchant, id, req, seen, u);
      if missed { error, broken := ExplainMiss(eid, merchant, id, req, seen, u); }
    }

    method WriteEditNow(eid: Id, merchant: string, id: Id, req: UpdateRequest, seen: Product, u: Update)
      returns (error: Option<UpdateError>, broken: bool, missed: bool)
      requires db.Valid() && eid in db.shop.edits && db.shop.edits[eid] == Edit(merchant, id, req, seen, u, false)
      modifies db
      ensures Edited(eid, id, req, error, broken || missed) && db.schedule == old(db.schedule)
      ensures missed ==> eid in db.shop.edits && db.shop.edits[eid] == Edit(merchant, id, req, seen, u, true)
      ensures error.None? && !broken && !missed ==> Owned(db.products, merchant, id)
      ensures id !in old(db.locks) ==>
        !broken && match GuardedWrite(old(db.products), merchant, id, u)
                   case Miss => missed
                   case Refused(e) => !missed && error == Some(e) && db.products == old(db.products)
                   case Hit(row) => !missed && error == None && db.products == old(db.products)[id := row]
    {
      var res := db.UpdateProduct(merchant, id, u);
      broken, missed := res == UpdateWaits, res == Outcome(Miss);
      error := if res.Outcome? && res.outcome.Refused? then Some(res.outcome.error) else None;
      if broken { return; }
      WriteDecides(db.shop, eid);
      db.DidEdit(WriteEdit(eid), eid, if missed then [] else [EditAnswer(id, req, error)]);
    }

    method ExplainMiss(eid: Id, merchant: string, id: Id, req: UpdateRequest, seen: Product, u: Update)
      returns (error: Option<UpdateError>, broken: bool)
      requires db.Valid() && eid in db.shop.edits && db.shop.edits[eid] == Edit(merchant, id, req, seen, u, true)
      modifies db, faults
      ensures Edited(eid, id, req, error, broken) && (error.None? ==> broken)
      ensures old(db.schedule) == [] ==> db.schedule == []
    {
      db.Others(Editor(eid));
      broken := faults.Next();
      if broken { return None, broken; }
      error := ExplainNow(eid, merchant, id, req, seen, u);
    }

    method ExplainNow(eid: Id, merchant: string, id: Id, req: UpdateRequest, seen: Product, u: Update)
      returns (error: Option<UpdateError>)
      requires db.Valid() && eid in db.shop.edits && db.shop.edits[eid] == Edit(merchant, id, req, seen, u, true)
      modifies db
      ensures Edited(eid, id, req, error, false) && error.Some? && db.schedule == old(db.schedule)
    {
      var p := db.GetProduct(merchant, id);
      db.Did(ExplainEdit(eid));
      if p.None? { return Some(NotFound); }
      if p.value.archived { return Some(Archived); }
      if u.locked.Some? && p.value.firstPurchasedAt.Some? { return Some(FieldsLocked); }
      return Some(NotFound);
    }
  }

  method OneProduct() returns (db: ShopDb)
    ensures fresh(db) && db.Valid() && db.products == map["p" := SHELF]
    ensures db.schedule == [] && db.locks == map[] && db.shop.edits == map[]
  {
    db := new ShopDb([]);
    db.products := map["p" := SHELF];
    assert |SHELF.currency| == 3;
    db.Did(CreateProduct("p", SHELF));
  }

  method ServiceOn(db: ShopDb, faults: Oracle) returns (service: Service)
    ensures service.db == db && service.faults == faults
  {
    var ledger := new Ledgers.Postgres([]);
    var acquirer := new Silvergate.Acquirer([]);
    var capturer := new Silvergate.Service(ledger, acquirer, faults);
    service := new Service(db, capturer, faults);
  }

  /** The price is raised, nothing else happens, and the caller gets an error: only the third statement failed. */
  method WrittenButBroken() returns (db: ShopDb, answer: UpdateAnswer)
    ensures fresh(db) && db.Valid() && answer == Broken
    ensures db.products == map["p" := SHELF.(price := 200)]
  {
    db := OneProduct();
    var faults := new Oracle([false, false, true]);
    var service := ServiceOn(db, faults);
    RaiseIsAccepted();
    answer := service.Update("e", "m", "p", RAISE);
  }
}
