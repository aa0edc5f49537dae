/** The inbox repository, the retrying client and the worker loop, statement by statement, against a
    table that other workers use at the same time. */
module InboxWorker {
  import opened Base
  import opened Inbox
  import opened InboxProofs
  import opened InboxTheorems
  import opened InboxDrain
  import opened InboxKeys

  predicate IsOf(e: Event, w: Id) {
    !e.Store? && e.w == w
  }

  predicate Untouched(s: Inbox, s': Inbox, w: Id) {
    WorkerOf(s', w) == WorkerOf(s, w)
  }

  lemma OthersKeepOut(s: Inbox, e: Event, w: Id)
    requires !IsOf(e, w)
    ensures Untouched(s, Step(s, e), w)
  {}

  /** Other clients store no message, do not crash, and their row writes go through. */
  predicate NeutralSchedule(schedule: seq<seq<Event>>) {
    forall burst :: burst in schedule ==> NeutralFrom(burst, 0)
  }

  /** From event n on there is nothing but events of worker w. */
  predicate OwnFrom(es: seq<Event>, n: nat, w: Id) {
    forall i :: n <= i < |es| ==> IsOf(es[i], w)
  }

  lemma {:induction false} OwnLeavesOthers(cfg: Config, es: seq<Event>, n: nat, w: Id, other: Id)
    requires n <= |es| && OwnFrom(es, n, w) && other != w
    ensures Untouched(Run(INIT(cfg), es[..n]), Run(INIT(cfg), es), other)
  {
    if n == |es| {
      assert es[..n] == es;
    } else {
      var most := es[..|es| - 1];
      assert most[..n] == es[..n];
      OwnLeavesOthers(cfg, most, n, w, other);
      OthersKeepOut(Run(INIT(cfg), most), es[|es| - 1], other);
    }
  }

  class InboxDb {
    var rows: map<Id, Row>
    // The step machine this table is proved against, and everything that has happened to it.
    const cfg: Config
    var inbox: Inbox
    var trace: seq<Event>
    // What other clients are going to do, in bursts between the statements of one worker.
    var schedule: seq<seq<Event>>

    ghost predicate Valid()
      reads this
    {
      rows == inbox.rows && inbox == Run(INIT(cfg), trace)
    }

    constructor (cfg: Config, schedule: seq<seq<Event>>)
      ensures Valid() && trace == [] && this.cfg == cfg && this.schedule == schedule
    {
      this.cfg := cfg;
      rows, inbox, trace := map[], INIT(cfg), [];
      this.schedule := schedule;
    }

    /** Advances the machine by the event the table has already gone through. */
    method Did(e: Event)
      requires inbox == Run(INIT(cfg), trace) && rows == Step(inbox, e).rows
      modifies this`inbox, this`trace
      ensures Valid() && trace == old(trace) + [e] && inbox == Step(old(inbox), e)
    {
      RunOne(INIT(cfg), trace, e);
      inbox, trace := Step(inbox, e), trace + [e];
    }

    /** One burst of other clients' events. */
    method Others(w: Id)
      requires Valid()
      modifies this
      ensures Valid() && old(trace) <= trace && Untouched(old(inbox), inbox, w)
      ensures old(schedule) == [] ==> schedule == [] && inbox == old(inbox) && trace == old(trace)
      ensures NeutralSchedule(old(schedule)) ==> NeutralSchedule(schedule) && NeutralFrom(trace, |old(trace)|)
    {
      if schedule == [] { return; }
      var burst := schedule[0];
      schedule := schedule[1..];
      assert burst in old(schedule);
      for i := 0 to |burst|
        invariant schedule == old(schedule)[1..]
        invariant Valid() && old(trace) <= trace && Untouched(old(inbox), inbox, w)
        invariant NeutralSchedule(old(schedule)) ==> NeutralFrom(trace, |old(trace)|)
      {
        if !IsOf(burst[i], w) {
          OthersKeepOut(inbox, burst[i], w);
          rows := Step(inbox, burst[i]).rows;
          Did(burst[i]);
        }
      }
    }

    /** INSERT INTO inbox; false: the idempotency key is taken. */
    method Store(id: Id, key: string, kind: Kind, payload: Option<Webhook>, at: int) returns (stored: bool)
      requires Valid() && id !in rows
      modifies this`rows, this`inbox, this`trace
      ensures Valid() && trace == old(trace) + [Event.Store(id, key, kind, payload, at)]
      ensures stored <==> !KeyStored(old(rows), key)
      ensures rows == if stored then old(rows)[id := NewRow(key, kind, payload, at)] else old(rows)
    {
      stored := !KeyStored(rows, key);
      if stored { rows := rows[id := NewRow(key, kind, payload, at)]; }
      Did(Event.Store(id, key, kind, payload, at));
    }

    /** ProcessOrderUpdate, ProcessDisputeUpdate and ProcessPaymentWebhook: a duplicate is accepted and changes
        nothing. */
    method Receive(id: Id, w: Webhook, at: int)
      requires Valid() && id !in rows
      modifies this`rows, this`inbox, this`trace
      ensures Valid() && trace == old(trace) + [Received(id, w, at)] && KeyStored(rows, KeyOf(w))
      ensures KeyStored(old(rows), KeyOf(w)) ==> rows == old(rows)
      ensures !KeyStored(old(rows), KeyOf(w)) ==> rows == old(rows)[id := NewRow(KeyOf(w), KindOf(w), Some(w), at)]
    {
      var stored := Store(id, KeyOf(w), KindOf(w), Some(w), at);
      if stored { assert rows[id].key == KeyOf(w); }
    }

    /** The oldest of the available rows that are not in `taken`. */
    method Oldest(taken: set<Id>, free: set<Id>) returns (id: Id)
      requires free - taken != {} && free <= rows.Keys
      ensures id in free && id !in taken
      ensures forall other :: other in free && other !in taken ==> rows[id].receivedAt <= rows[other].receivedAt
    {
      var left := free - taken;
      id :| id in left;
      left := left - {id};
      while left != {}
        invariant left <= free - taken && id in free - taken
        invariant forall other :: other in free - taken && other !in left ==>
          rows[id].receivedAt <= rows[other].receivedAt
        decreases |left|
      {
        var next :| next in left;
        if rows[next].receivedAt < rows[id].receivedAt { id := next; }
        left := left - {next};
      }
    }

    /** SELECT ... WHERE status = 'pending' ORDER BY received_at LIMIT n FOR UPDATE SKIP LOCKED. */
    method LockOldest() returns (ids: set<Id>)
      requires rows == inbox.rows && inbox.cfg == cfg
      ensures Chosen(inbox, ids)
      ensures |ids| <= (if cfg.batchSize >= 0 then cfg.batchSize else 0)
      ensures forall id :: id in ids ==> id in rows && rows[id].status == Pending && !RowLocked(inbox, id)
      ensures forall id, other ::
        id in ids && other in rows && rows[other].status == Pending && !RowLocked(inbox, other) && other !in ids ==>
        |ids| >= cfg.batchSize && rows[id].receivedAt <= rows[other].receivedAt
    {
      var free := set id | id in rows && Available(inbox, id);
      ids := {};
      while |ids| < Limit(cfg) && free - ids != {}
        invariant ids <= free && |ids| <= Limit(cfg)
        invariant forall id, other :: id in ids && other in free && other !in ids ==>
          rows[id].receivedAt <= rows[other].receivedAt
        decreases Limit(cfg) - |ids|
      {
        var id := Oldest(ids, free);
        ids := ids + {id};
      }
    }

    method Listing(ids: set<Id>) returns (order: seq<Id>)
      ensures Lists(order, ids)
    {
      order := [];
      var left := ids;
      while left != {}
        invariant left <= ids && NoDup(order)
        invariant forall id :: id in order ==> id in ids && id !in left
        invariant forall id :: id in ids && id !in left ==> id in order
        decreases |left|
      {
        var id :| id in left;
        order := order + [id];
        left := left - {id};
      }
    }

    /** Claims up to a batch of the oldest pending rows that nobody else is claiming, in two phases. */
    method FetchPending(w: Id) returns (batch: seq<Id>, ghost ids: set<Id>)
      requires Valid() && WorkerOf(inbox, w) == Idle
      modifies this
      ensures Valid() && old(trace) <= trace && WorkerOf(inbox, w) == Working(batch)
      ensures Chosen(old(inbox), ids) && Lists(batch, ids)
      ensures old(schedule) == [] ==>
        schedule == [] && Claims(old(inbox), inbox, w, ids, batch) && OwnFrom(trace, |old(trace)|, w)
      ensures NeutralSchedule(old(schedule)) ==> NeutralSchedule(schedule) && NeutralFrom(trace, |old(trace)|)
    {
      RunsSound(cfg, trace);
      var chosen := LockOldest();
      ids := chosen;
      Did(Lock(w, chosen));
      Others(w);
      batch := ClaimLocked(w, chosen);
    }

    /** The UPDATE around the SELECT: the locked rows become ours. */
    method ClaimLocked(w: Id, ids: set<Id>) returns (batch: seq<Id>)
      requires Valid() && WorkerOf(inbox, w) == Locking(ids)
      modifies this`rows, this`inbox, this`trace
      ensures Valid() && trace == old(trace) + [Claim(w, batch)] && Lists(batch, ids)
      ensures inbox == DoClaim(old(inbox), w, batch) && WorkerOf(inbox, w) == Working(batch)
    {
      batch := Listing(ids);
      rows := ClaimAll(rows, ids);
      Did(Claim(w, batch));
    }

    /** UPDATE inbox SET status = 'processed' WHERE id = $1. */
    method MarkProcessed(id: Id)
      modifies this`rows
      ensures rows == if id in old(rows) then old(rows)[id := old(rows)[id].(status := Processed)] else old(rows)
    {
      if id in rows { rows := rows[id := MarkedProcessed(rows[id])]; }
    }

    /** One more retry on record; failed for good when that reaches the limit. */
    method MarkFailed(id: Id, maxRetries: int)
      modifies this`rows
      ensures id !in old(rows) ==> rows == old(rows)
      ensures id in old(rows) ==>
        var retries := old(rows)[id].retryCount + 1;
        var status := if retries >= maxRetries then Dead else Pending;
        rows == old(rows)[id := old(rows)[id].(retryCount := retries, status := status)]
    {
      if id in rows { rows := rows[id := MarkedFailed(rows[id], maxRetries)]; }
    }
  }

  /** With nobody in between, a fetch is one step of choosing the oldest rows and claiming them. */
  predicate Claims(s: Inbox, s': Inbox, w: Id, ids: set<Id>, batch: seq<Id>) {
    Chosen(s, ids) && Lists(batch, ids) && s' == DoClaim(DoLock(s, w, ids), w, batch)
  }

  /** There is something to claim, and room in a batch. */
  ghost predicate HasWork(s: Inbox) {
    s.cfg.batchSize >= 1 && exists id :: Available(s, id)
  }

  lemma {:induction false} HasRow(cfg: Config, es: seq<Event>, w: Id, todo: seq<Id>)
    requires todo != [] && WorkerOf(Run(INIT(cfg), es), w) == Working(todo)
    ensures var s := Run(INIT(cfg), es);
      todo[0] in s.rows && s.cfg == cfg && forall tries :: Measure(DoProcess(s, w, tries)) == Measure(s)
  {
    RunsSound(cfg, es);
    var s := Run(INIT(cfg), es);
    assert WorkerOk(s, s.workers[w]) && Waiting(s, todo[0]);
    forall tries ensures Measure(DoProcess(s, w, tries)) == Measure(s) {
      OthersKeepMeasure(s, Process(w, tries));
    }
  }

  /** A worker that has gone through its batch is idle again. */
  lemma Rest(w: Id, tries: seq<Attempt>, s: Inbox)
    requires WorkerOf(s, w) == Working([])
    ensures var s' := DoProcess(s, w, tries); s'.rows == s.rows && WorkerOf(s', w) == Idle && Measure(s') == Measure(s)
  {
    assert Weights(DoProcess(s, w, tries)) == Weights(s);
  }

  lemma {:induction false} MarkCounts(cfg: Config, es: seq<Event>, w: Id)
    requires WorkerOf(Run(INIT(cfg), es), w).Handled?
    ensures var s := Run(INIT(cfg), es);
      s.cfg == cfg && s.workers[w].id in s.rows && Measure(DoMark(s, w, true)) < Measure(s)
  {
    RunsSound(cfg, es);
    assert WorkerOk(Run(INIT(cfg), es), Run(INIT(cfg), es).workers[w]);
    MarkLowersMeasure(Run(INIT(cfg), es), w);
  }

  lemma WorkHasWeight(s: Inbox)
    requires RowsOk(s) && HasWork(s)
    ensures Measure(s) >= 1
  {
    WeightsPositive(s);
    var id :| Available(s, id);
    TotalSplit(Weights(s), id);
    TotalMonotone(Weights(s) - {id}, Weights(s));
  }

  lemma WorkIsFetched(s: Inbox, ids: set<Id>, batch: seq<Id>)
    requires Chosen(s, ids) && Lists(batch, ids)
    ensures HasWork(s) <==> batch != []
  {
    if batch == [] {
      assert ids == {};
      NothingChosen(s);
    } else {
      assert batch[0] in ids && Available(s, batch[0]);
      assert ids != {};
    }
  }

  /** No worker has anything in hand, no message is orphaned, and a batch may hold something. */
  ghost predicate Unattended(s: Inbox) {
    s.cfg.batchSize >= 1 && AllIdle(s) && NoOrphans(s)
  }

  /** What a worker on its own leaves behind once there is nothing to claim. */
  lemma {:induction false} LeftSettled(cfg: Config, es: seq<Event>, n: nat, w: Id)
    requires n <= |es| && NeutralFrom(es, n) && OwnFrom(es, n, w)
    requires Unattended(Run(INIT(cfg), es[..n]))
    requires WorkerOf(Run(INIT(cfg), es), w) == Idle
    ensures !HasWork(Run(INIT(cfg), es)) ==> AllTerminal(Run(INIT(cfg), es))
  {
    var s := Run(INIT(cfg), es);
    RunsSound(cfg, es[..n]);
    RunsSound(cfg, es);
    NeutralLeavesNoOrphans(cfg, es, n);
    forall v | v in s.workers ensures s.workers[v] == Idle {
      assert WorkerOf(s, v) == s.workers[v];
      if v != w { OwnLeavesOthers(cfg, es, n, w, v); }
    }
    if !HasWork(s) { QuietMeansSettled(s); }
  }

  lemma NothingChosen(s: Inbox)
    requires Chosen(s, {})
    ensures !HasWork(s)
  {}

  /** A fetch that brings nothing leaves nothing to do. */
  lemma EmptyFetch(s: Inbox, s': Inbox, w: Id, ids: set<Id>)
    requires Claims(s, s', w, ids, []) && WorkerOf(s, w) == Idle && !HasWork(s)
    ensures !HasWork(DoProcess(s', w, []))
  {
    var s'' := DoProcess(s', w, []);
    assert ids == {};
    assert s''.rows == s.rows;
    forall id | RowLocked(s, id) ensures RowLocked(s'', id) {
      var v :| v in s.workers && s.workers[v].Locking? && id in s.workers[v].ids;
      assert v in s''.workers && s''.workers[v] == s.workers[v];
    }
    assert forall id :: Available(s'', id) ==> Available(s, id);
  }

  /** The HTTP client's view of the API: what the next requests will be answered. */
  class Api {
    var tries: seq<Attempt>

    constructor (tries: seq<Attempt>) {
      this.tries := tries;
    }

    method Send() returns (a: Attempt)
      modifies this
      ensures a == (if old(tries) == [] then Attempt(Unavailable, false) else old(tries)[0])
      ensures tries == if old(tries) == [] then [] else old(tries)[1..]
    {
      if tries == [] { return Attempt(Unavailable, false); }
      a := tries[0];
      tries := tries[1..];
    }

    /** Retries while the service is unavailable, at most `maxAttempts` times. */
    method DoWithRetry(maxAttempts: int) returns (result: SendResult, made: nat)
      modifies this
      ensures (result, made) == Retry(maxAttempts, old(tries))
    {
      result, made := Sent, 0;
      var attempt := 0;
      while attempt < maxAttempts
        invariant 0 <= attempt == made && (attempt < maxAttempts || maxAttempts <= 0)
        invariant maxAttempts <= 0 ==> result == Sent && attempt == 0
        invariant maxAttempts > 0 ==>
          && Retry(maxAttempts, old(tries)).0 == Retry(maxAttempts - attempt, tries).0
          && Retry(maxAttempts, old(tries)).1 == Retry(maxAttempts - attempt, tries).1 + attempt
        decreases maxAttempts - attempt
      {
        var a := Send();
        made := made + 1;
        if a.reply == Success { return Sent, made; }
        result := Refused(a.reply);
        if a.reply != Unavailable { return; }
        if attempt == maxAttempts - 1 { return; }
        if a.cancelled { return Cancelled, made; }
        attempt := attempt + 1;
      }
    }
  }

  class InboxWorker {
    const id: Id
    const db: InboxDb
    const api: Api
    var faults: seq<bool>

    constructor (id: Id, db: InboxDb, api: Api, faults: seq<bool>)
      ensures this.id == id && this.db == db && this.api == api && this.faults == faults
    {
      this.id, this.db, this.api := id, db, api;
      this.faults := faults;
    }

    method Breaks() returns (b: bool)
      modifies this
      ensures old(faults) == [] ==> !b && faults == []
    {
      b := faults != [] && faults[0];
      if faults != [] { faults := faults[1..]; }
    }

    /** No failing statement, and nothing but neutral events, come between the worker's steps. */
    predicate Calm()
      reads this, db
    {
      NeutralSchedule(db.schedule) && faults == []
    }

    /** Not even that: nobody else does anything. */
    predicate Alone()
      reads this, db
    {
      db.schedule == [] && faults == []
    }

    /** Calm stayed calm, and a worker alone stayed alone. */
    twostate predicate Undisturbed()
      reads this, db
    {
      && db.Valid() && old(db.trace) <= db.trace
      && (old(Calm()) ==> Calm() && NeutralFrom(db.trace, |old(db.trace)|))
      && (old(Alone()) ==> Alone() && OwnFrom(db.trace, |old(db.trace)|, id))
    }

    /** Sends the first message of the batch and writes its row back. */
    method HandleNext(todo: seq<Id>)
      requires db.Valid() && todo != [] && WorkerOf(db.inbox, id) == Working(todo)
      modifies this, db, api
      ensures Undisturbed() && WorkerOf(db.inbox, id) == Working(todo[1..])
      ensures old(Calm()) ==> Measure(db.inbox) < old(Measure(db.inbox))
    {
      var outcome := ProcessMessage(todo);
      ghost var n := |db.trace|;
      ghost var processed := db.trace;
      db.Others(id);
      if NeutralFrom(db.trace, n) {
        NeutralKeepsMeasure(db.cfg, db.trace, n);
        assert db.trace[..n] == processed;
      }
      WriteBack(todo[0], outcome, todo[1..]);
    }

    /** processMessage: unknown types and malformed payloads fail without a request. */
    method ProcessMessage(todo: seq<Id>) returns (outcome: Outcome)
      requires db.Valid() && todo != [] && WorkerOf(db.inbox, id) == Working(todo)
      modifies db, api
      ensures Undisturbed() && WorkerOf(db.inbox, id) == Handled(todo[0], outcome, todo[1..])
      ensures db.schedule == old(db.schedule) && Measure(db.inbox) == old(Measure(db.inbox))
    {
      HasRow(db.cfg, db.trace, id, todo);
      var row, tries := db.rows[todo[0]], api.tries;
      outcome := Failure(false);
      if row.kind != OtherKind && row.payload.Some? {
        var result, made := api.DoWithRetry(db.cfg.retryAttempts);
        if result == Sent || result == Refused(Conflict) { outcome := Done; }
          else { outcome := Failure(IsPermanent(result)); }
      }
      db.rows := db.rows[todo[0] := Tried(db.cfg, row, tries)];
      db.Did(Process(id, tries));
    }

    method WriteBack(message: Id, outcome: Outcome, todo: seq<Id>)
      requires db.Valid() && WorkerOf(db.inbox, id) == Handled(message, outcome, todo)
      modifies this, db
      ensures Undisturbed() && WorkerOf(db.inbox, id) == Working(todo)
      ensures old(Calm()) ==> Measure(db.inbox) < old(Measure(db.inbox))
    {
      var broken := Breaks();
      if broken {
        db.Did(Mark(id, false));
        return;
      }
      WriteNow(message, outcome, todo);
    }

    method WriteNow(message: Id, outcome: Outcome, todo: seq<Id>)
      requires db.Valid() && WorkerOf(db.inbox, id) == Handled(message, outcome, todo)
      modifies db
      ensures Undisturbed() && WorkerOf(db.inbox, id) == Working(todo)
      ensures Measure(db.inbox) < old(Measure(db.inbox))
    {
      MarkCounts(db.cfg, db.trace, id);
      match outcome {
        case Done => db.MarkProcessed(message);
        case Failure(permanent) => db.MarkFailed(message, if permanent then 0 else db.cfg.maxRetries);
      }
      db.Did(Mark(id, true));
    }

    /** Claims a batch and processes it message by message; each message is written back with its outcome. However many
        other workers act in between, a poll that finds something to claim gets work done. */
    method Poll()
      requires db.Valid() && WorkerOf(db.inbox, id) == Idle
      modifies this, db, api
      ensures Undisturbed() && WorkerOf(db.inbox, id) == Idle
      ensures old(Calm()) ==> Measure(db.inbox) <= old(Measure(db.inbox))
      ensures old(Calm()) && old(HasWork(db.inbox)) ==> Measure(db.inbox) < old(Measure(db.inbox))
      ensures old(Alone()) && !old(HasWork(db.inbox)) ==> !HasWork(db.inbox)
    {
      var batch := Fetch();
      var i := 0;
      while i < |batch|
        invariant 0 <= i <= |batch| && Undisturbed()
        invariant WorkerOf(db.inbox, id) == Working(batch[i..])
        invariant old(Calm()) ==> Measure(db.inbox) + i <= old(Measure(db.inbox))
        invariant old(Alone()) && batch == [] && !old(HasWork(db.inbox)) ==> !HasWork(DoProcess(db.inbox, id, []))
      {
        HandleNext(batch[i..]);
        i := i + 1;
      }
      Rest(id, [], db.inbox);
      db.Did(Process(id, []));
    }

    method Fetch() returns (batch: seq<Id>)
      requires db.Valid() && WorkerOf(db.inbox, id) == Idle
      modifies db
      ensures Undisturbed() && WorkerOf(db.inbox, id) == Working(batch)
      ensures old(Calm()) ==> Measure(db.inbox) <= old(Measure(db.inbox))
      ensures old(HasWork(db.inbox)) ==> batch != []
      ensures old(Alone()) && !old(HasWork(db.inbox)) ==> batch == [] && !HasWork(DoProcess(db.inbox, id, []))
    {
      ghost var before, n := db.inbox, |db.trace|;
      ghost var ids;
      batch, ids := db.FetchPending(id);
      if NeutralFrom(db.trace, n) {
        NeutralKeepsMeasure(db.cfg, db.trace, n);
        assert db.trace[..n] == old(db.trace);
      }
      WorkIsFetched(before, ids, batch);
      if old(Alone()) && !HasWork(before) { EmptyFetch(before, db.inbox, id, ids); }
    }

    /** The ticker loop: a worker left alone with the inbox, with no message in anybody else's hands, brings every
        message to its end in as many polls as the measure allows; and with any number of other workers, no more polls
        than that ever find something to claim. */
    method Start(ticks: nat) returns (ghost busy: nat)
      requires db.Valid() && WorkerOf(db.inbox, id) == Idle
      modifies this, db, api
      ensures Undisturbed() && WorkerOf(db.inbox, id) == Idle
      ensures old(Alone()) && ticks >= old(Measure(db.inbox)) ==> !HasWork(db.inbox)
      ensures old(Alone()) && ticks >= old(Measure(db.inbox)) && old(Unattended(db.inbox)) ==> AllTerminal(db.inbox)
      ensures old(Calm()) ==> busy <= old(Measure(db.inbox))
    {
      RunsSound(db.cfg, db.trace);
      WeightsPositive(db.inbox);
      busy := 0;
      for tick := 0 to ticks
        invariant Undisturbed() && WorkerOf(db.inbox, id) == Idle
        invariant old(Alone()) ==> !HasWork(db.inbox) || Measure(db.inbox) <= old(Measure(db.inbox)) - tick
        invariant old(Calm()) ==> Measure(db.inbox) + busy <= old(Measure(db.inbox))
      {
        if HasWork(db.inbox) { busy := busy + 1; }
        Poll();
      }
      RunsSound(db.cfg, db.trace);
      WeightsPositive(db.inbox);
      if HasWork(db.inbox) { WorkHasWeight(db.inbox); }
      if old(Alone()) && old(Unattended(db.inbox)) {
        ghost var n := |old(db.trace)|;
        assert db.trace[..n] == old(db.trace);
        LeftSettled(db.cfg, db.trace, n, id);
      }
    }
  }
}
