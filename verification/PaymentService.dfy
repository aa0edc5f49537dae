/** The merchant's webhook handler, statement by statement, against a database that other handlers
    and the unguarded status writes use at the same time. */
module PaymentService {
  import opened Base
  import opened Transactions
  import opened RowStore
  import opened Mirror
  import opened MirrorProofs

  predicate IsOf(e: Event, sid: Id) {
    !e.Alone? && e.sid == sid
  }

  /** What the events of handler `sid` put on record in the run `es`. */
  function Recorded(es: seq<Event>, sid: Id): seq<Entry> {
    if es == [] then []
    else
      var before := Run(INIT, es[..|es| - 1]);
      Recorded(es[..|es| - 1], sid) + Appended(before, es[|es| - 1], sid)
  }

  function Appended(before: State, e: Event, sid: Id): seq<Entry> {
    var after := Step(before, e);
    if IsOf(e, sid) && |before.history| <= |after.history| then after.history[|before.history|..] else []
  }

  predicate Untouched(l: State, l': State, sid: Id) {
    (sid in l.sessions <==> sid in l'.sessions) && (sid in l.sessions ==> l'.sessions[sid] == l.sessions[sid])
  }

  lemma OthersKeepOut(l: State, e: Event, sid: Id)
    requires !IsOf(e, sid)
    ensures Untouched(l, Step(l, e), sid)
  {}

  lemma {:induction false} OneMore(es: seq<Event>, e: Event, sid: Id)
    ensures Run(INIT, es + [e]) == Step(Run(INIT, es), e)
    ensures Recorded(es + [e], sid) == Recorded(es, sid) + Appended(Run(INIT, es), e, sid)
  {
    assert (es + [e])[..|es|] == es;
  }

  lemma {:induction false} HandlerFacts(es: seq<Event>, sid: Id)
    requires sid in Run(INIT, es).sessions
    ensures var l := Run(INIT, es); Sees(l, l.sessions[sid]) && Owns(l, sid, l.sessions[sid])
    ensures var l := Run(INIT, es); var s := l.sessions[sid]; var id := s.w.transactionId;
      s.stage.Reading? ==> !(id in l.locks.holder && l.locks.holder[id] == sid)
  {
    Linearizable(es);
  }

  datatype Result = Done | Waits | Conflict | Duplicate

  /** The columns an UPDATE sets; the others keep the values of the current row version. */
  datatype Assignment = SetStatus(status: Status) | SetRefund(status: Status, refunded: int)

  function Assign(p: Payment, a: Assignment): Payment {
    match a
    case SetStatus(s) => p.(status := s)
    case SetRefund(s, refunded) => p.(status := s, refundedAmount := refunded)
  }

  class MerchantDb {
    var payments: map<Id, Payment>
    var events: set<EventKey>
    var locks: Locks<Payment>
    // The step machine this database is proved against, and everything that has happened to it.
    var state: State
    var trace: seq<Event>
    // What other clients are going to do, in bursts between the statements of one handler.
    var schedule: seq<seq<Event>>

    predicate Agrees(l: State)
      reads this
    {
      payments == l.mirror.payments && events == l.mirror.events && locks == l.locks
    }

    ghost predicate Valid()
      reads this
    {
      Agrees(state) && state == Run(INIT, trace)
    }

    constructor (schedule: seq<seq<Event>>)
      ensures Valid() && trace == []
    {
      payments, events, locks := map[], {}, Locks(map[], map[], map[]);
      state, trace := INIT, [];
      this.schedule := schedule;
    }

    /** Advances the machine by the event the tables have already gone through. */
    method Did(e: Event)
      requires state == Run(INIT, trace) && Agrees(Step(state, e))
      modifies this`state, this`trace
      ensures Valid() && trace == old(trace) + [e] && state == Step(old(state), e)
      ensures forall sid :: Recorded(trace, sid) == Recorded(old(trace), sid) + Appended(old(state), e, sid)
    {
      forall sid { OneMore(trace, e, sid); }
      OneMore(trace, e, "");
      state, trace := Step(state, e), trace + [e];
    }

    /** One burst of other clients' events. */
    method Others(sid: Id)
      requires Valid()
      modifies this
      ensures Valid() && old(trace) <= trace
      ensures Untouched(old(state), state, sid) && Recorded(trace, sid) == Recorded(old(trace), sid)
    {
      if schedule == [] { return; }
      var burst := schedule[0];
      schedule := schedule[1..];
      var i := 0;
      while i < |burst|
        invariant Valid() && old(trace) <= trace
        invariant Untouched(old(state), state, sid) && Recorded(trace, sid) == Recorded(old(trace), sid)
      {
        if !IsOf(burst[i], sid) { Other(burst[i], sid); }
        i := i + 1;
      }
    }

    method Other(e: Event, sid: Id)
      requires Valid() && !IsOf(e, sid)
      modifies this`payments, this`events, this`locks, this`state, this`trace
      ensures Valid() && trace == old(trace) + [e]
      ensures Untouched(old(state), state, sid) && Recorded(trace, sid) == Recorded(old(trace), sid)
    {
      OthersKeepOut(state, e, sid);
      var next := Step(state, e);
      payments, events, locks := next.mirror.payments, next.mirror.events, next.locks;
      Did(e);
    }

    /** SELECT ... WHERE provider_tx_id = $1, the first statement of a snapshot. */
    method GetPaymentByProviderTxID(id: Id) returns (row: Option<Payment>, snapshot: nat)
      ensures row == (if id in payments then Some(payments[id]) else None) && snapshot == Version(locks, id)
    {
      row := if id in payments then Some(payments[id]) else None;
      snapshot := Version(locks, id);
    }

    /** UPDATE payments ... inside a RepeatableRead transaction. */
    method Update(sid: Id, id: Id, a: Assignment, snapshot: nat) returns (res: Result)
      requires id in payments
      modifies this`locks
      ensures res == (if !Free(old(locks), sid, id) then Waits
                      else if Version(old(locks), id) != snapshot then Conflict else Done)
      ensures locks == (if res == Done then RowStore.Write(old(locks), sid, id, Assign(payments[id], a))
                        else old(locks))
    {
      if !Free(locks, sid, id) { return Waits; }
      if Version(locks, id) != snapshot { return Conflict; }
      locks := RowStore.Write(locks, sid, id, Assign(payments[id], a));
      return Done;
    }

    /** INSERT INTO events; the row stays with its database transaction until the commit. */
    method CreateEvent(key: EventKey) returns (res: Result)
      ensures res == (if EventInFlight(state, key) then Waits else if key in events then Duplicate else Done)
    {
      if EventInFlight(state, key) { return Waits; }
      res := if key in events then Duplicate else Done;
    }

    method CommitWork(id: Id, key: EventKey)
      requires id in locks.staged
      modifies this`payments, this`events, this`locks
      ensures payments == old(payments)[id := old(locks).staged[id]] && events == old(events) + {key}
      ensures locks == Bump(Unlock(old(locks), id), id)
    {
      payments := payments[id := locks.staged[id]];
      events := events + {key};
      locks := Bump(Unlock(locks, id), id);
    }

    /** ROLLBACK of a database transaction that may hold the lock of row `id`. */
    method RollbackWork(sid: Id, id: Id)
      modifies this`locks
      ensures locks == (if id in old(locks).holder && old(locks).holder[id] == sid then Unlock(old(locks), id)
                        else old(locks))
    {
      if id in locks.holder && locks.holder[id] == sid { locks := Unlock(locks, id); }
    }
  }

  /** How a handler ends: with a definite reply, or with an error that says nothing. */
  datatype Answer = Verdict(reply: Reply) | Failed

  function Told(answer: Answer, w: Webhook): seq<Entry> {
    if answer.Verdict? then [Entry(Deliver(w), answer.reply)] else []
  }

  class Service {
    const db: MerchantDb
    var faults: seq<bool>

    constructor (db: MerchantDb, faults: seq<bool>)
      ensures this.db == db
    {
      this.db, this.faults := db, faults;
    }

    method Breaks() returns (b: bool)
      modifies this
    {
      b := faults != [] && faults[0];
      if faults != [] { faults := faults[1..]; }
    }

    /** The handler is over; it answers what the machine has put on record for it. */
    twostate predicate Settled(sid: Id, answer: Answer, w: Webhook)
      reads db
    {
      && db.Valid() && sid !in db.state.sessions && old(db.trace) <= db.trace
      && Recorded(db.trace, sid) == Recorded(old(db.trace), sid) + Told(answer, w)
    }

    /** A statement went through and the handler is at `stage`; or the handler is over with this answer. */
    twostate predicate GoesOn(sid: Id, new over: Option<Answer>, stage: Stage)
      requires sid in old(db.state).sessions
      reads db
    {
      var s := old(db.state).sessions[sid];
      && db.Valid() && old(db.trace) <= db.trace
      && if over.None? then
           && sid in db.state.sessions && db.state.sessions[sid] == s.(stage := stage)
           && Recorded(db.trace, sid) == Recorded(old(db.trace), sid)
         else
           && sid !in db.state.sessions
           && Recorded(db.trace, sid) == Recorded(old(db.trace), sid) + Told(over.value, s.w)
    }

    method GiveUp(sid: Id, id: Id)
      requires db.Valid() && sid in db.state.sessions && db.state.sessions[sid].w.transactionId == id
      modifies db
      ensures db.Valid() && sid !in db.state.sessions && old(db.trace) <= db.trace
      ensures Recorded(db.trace, sid) == Recorded(old(db.trace), sid)
    {
      HandlerFacts(db.trace, sid);
      db.RollbackWork(sid, id);
      db.Did(Abort(sid));
    }

    /** Balance or status and event row are written in one database transaction, so a webhook handled
        twice changes nothing the second time. */
    method ProcessCaptureWebhook(sid: Id, w: Webhook) returns (answer: Answer)
      requires db.Valid() && sid !in db.state.sessions
      modifies db, this
      ensures Settled(sid, answer, w)
    {
      var row, snapshot := Read(sid, w);
      if row.None? { return Verdict(UnknownPayment); }
      var p := row.value;
      if IsRefund(w) {
        var refunded := p.refundedAmount + w.amount;
        var status := if refunded >= p.amount then Refunded else PartiallyRefunded;
        answer := WriteBoth(sid, p, w, SetRefund(status, refunded), snapshot);
        return;
      }
      match w.status
      case StatusLabel(s) =>
        if s != Captured && s != CaptureFailed && s != Voided { return Verdict(UnknownStatus); }
        if !CanTransitionTo(p.status, s) { return Verdict(Ignored); }
        answer := WriteBoth(sid, p, w, SetStatus(s), snapshot);
      case RefundFailedLabel => answer := Verdict(Ignored);
      case _ => answer := Verdict(UnknownStatus);
    }

    method Read(sid: Id, w: Webhook) returns (row: Option<Payment>, snapshot: nat)
      requires db.Valid() && sid !in db.state.sessions
      modifies db
      ensures db.Valid() && old(db.trace) <= db.trace
      ensures
        if row.Some? && PlanFor(row.value, w).Write? then
          && sid in db.state.sessions && db.state.sessions[sid] == Session(w, row.value, snapshot, Reading)
          && Recorded(db.trace, sid) == Recorded(old(db.trace), sid)
        else
          && sid !in db.state.sessions
          && Recorded(db.trace, sid) == Recorded(old(db.trace), sid)
             + [Entry(Deliver(w), if row.None? then UnknownPayment else PlanFor(row.value, w).reply)]
    {
      row, snapshot := db.GetPaymentByProviderTxID(w.transactionId);
      db.Did(Begin(sid, w));
    }

    method WriteBoth(sid: Id, p: Payment, w: Webhook, a: Assignment, snapshot: nat) returns (answer: Answer)
      requires db.Valid() && sid in db.state.sessions && db.state.sessions[sid] == Session(w, p, snapshot, Reading)
      requires Assign(p, a) == Planned(db.state.sessions[sid])
      modifies db, this
      ensures Settled(sid, answer, w)
    {
      var over := WriteRow(sid, w.transactionId, a, snapshot);
      if over.Some? { return over.value; }
      over := InsertEvent(sid, w.transactionId, EventOf(p, w));
      if over.Some? { return over.value; }
      answer := CommitBoth(sid, w.transactionId, EventOf(p, w));
    }

    method WriteRow(sid: Id, id: Id, a: Assignment, snapshot: nat) returns (over: Option<Answer>)
      requires db.Valid() && sid in db.state.sessions
      requires var s := db.state.sessions[sid];
        s.stage.Reading? && s.w.transactionId == id && s.seenVersion == snapshot && Assign(s.seen, a) == Planned(s)
      modifies db, this
      ensures GoesOn(sid, over, Written)
    {
      db.Others(sid);
      var broken := Breaks();
      if broken { GiveUp(sid, id); return Some(Failed); }
      over := WriteNow(sid, id, a, snapshot);
    }

    method WriteNow(sid: Id, id: Id, a: Assignment, snapshot: nat) returns (over: Option<Answer>)
      requires db.Valid() && sid in db.state.sessions
      requires var s := db.state.sessions[sid];
        s.stage.Reading? && s.w.transactionId == id && s.seenVersion == snapshot && Assign(s.seen, a) == Planned(s)
      modifies db
      ensures GoesOn(sid, over, Written)
    {
      HandlerFacts(db.trace, sid);
      var res := db.Update(sid, id, a, snapshot);
      if res == Waits { GiveUp(sid, id); return Some(Failed); }
      db.Did(UpdateRow(sid));
      over := if res == Done then None else Some(Failed);
    }

    method InsertEvent(sid: Id, id: Id, key: EventKey) returns (over: Option<Answer>)
      requires db.Valid() && sid in db.state.sessions
      requires var s := db.state.sessions[sid]; s.stage.Written? && s.w.transactionId == id && EventOfSession(s) == key
      modifies db, this
      ensures GoesOn(sid, over, Inserted)
    {
      db.Others(sid);
      var broken := Breaks();
      if broken { GiveUp(sid, id); return Some(Failed); }
      over := InsertNow(sid, id, key);
    }

    method InsertNow(sid: Id, id: Id, key: EventKey) returns (over: Option<Answer>)
      requires db.Valid() && sid in db.state.sessions
      requires var s := db.state.sessions[sid]; s.stage.Written? && s.w.transactionId == id && EventOfSession(s) == key
      modifies db
      ensures GoesOn(sid, over, Inserted)
    {
      HandlerFacts(db.trace, sid);
      var res := db.CreateEvent(key);
      if res == Waits { GiveUp(sid, id); return Some(Failed); }
      if res == Duplicate { db.RollbackWork(sid, id); }
      db.Did(Event.InsertEvent(sid));
      over := if res == Duplicate then Some(Verdict(AlreadyStored)) else None;
    }

    method CommitBoth(sid: Id, id: Id, key: EventKey) returns (answer: Answer)
      requires db.Valid() && sid in db.state.sessions
      requires var s := db.state.sessions[sid]; s.stage.Inserted? && s.w.transactionId == id && EventOfSession(s) == key
      modifies db, this
      ensures Settled(sid, answer, old(db.state).sessions[sid].w)
    {
      db.Others(sid);
      var broken := Breaks();
      if broken { GiveUp(sid, id); return Failed; }
      CommitNow(sid, id, key);
      return Verdict(Applied);
    }

    method CommitNow(sid: Id, id: Id, key: EventKey)
      requires db.Valid() && sid in db.state.sessions
      requires var s := db.state.sessions[sid]; s.stage.Inserted? && s.w.transactionId == id && EventOfSession(s) == key
      modifies db
      ensures Settled(sid, Verdict(Applied), old(db.state).sessions[sid].w)
    {
      HandlerFacts(db.trace, sid);
      db.CommitWork(id, key);
      db.Did(Commit(sid));
    }
  }
}
