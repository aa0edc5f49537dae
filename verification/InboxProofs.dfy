/** What every interleaving of inbox workers keeps, and why the inbox drains. */
module InboxProofs {
  import opened Base
  import opened Inbox

  function Max(a: int, b: int): int {
    if a >= b then a else b
  }

  /** The most often a message is claimed. */
  function ClaimLimit(cfg: Config): nat {
    Max(1, cfg.maxRetries)
  }

  function Budget(cfg: Config, claims: nat): nat {
    claims * Max(0, cfg.retryAttempts)
  }

  predicate Terminal(row: Row) {
    row.status == Processed || row.status == Dead
  }

  // Sending.

  /** Between one and n requests when n is positive, none otherwise; success means an answered request. */
  lemma {:induction false} RetryBounds(n: int, tries: seq<Attempt>)
    ensures var r := Retry(n, tries);
      && (n >= 1 ==> 1 <= r.1 <= n)
      && (n <= 0 ==> r == (Sent, 0))
    decreases n
  {
    if n > 1 { RetryBounds(n - 1, if tries == [] then [] else tries[1..]); }
  }

  /** Every request but the last was answered "service unavailable", and the last decides. */
  lemma {:induction false} RetryDecides(n: int, tries: seq<Attempt>)
    requires n >= 1 && |tries| >= n
    ensures var r := Retry(n, tries);
      && 1 <= r.1 <= n
      && (forall i :: 0 <= i < r.1 - 1 ==> tries[i] == Attempt(Unavailable, false))
      && (var last := tries[r.1 - 1];
          && (r.0 == Sent <==> last.reply == Success)
          && (r.0.Refused? ==> r.0.reply == last.reply && (last.reply == Unavailable ==> r.1 == n))
          && (r.0 == Cancelled ==> last.reply == Unavailable && last.cancelled && r.1 < n))
    decreases n
  {
    if n > 1 && tries[0] == Attempt(Unavailable, false) {
      RetryDecides(n - 1, tries[1..]);
      var r := Retry(n - 1, tries[1..]);
      forall i | 0 <= i < r.1 ensures tries[i] == Attempt(Unavailable, false) {
        if i > 0 { assert tries[i] == tries[1..][i - 1]; }
      }
    }
  }

  // Rows.

  /** Claims and retries keep step, and requests stay within the budget of the claims that may have sent them. */
  predicate RowOk(cfg: Config, row: Row) {
    && row.claims == row.retryCount + (if row.status == Processing || row.status == Processed then 1 else 0)
    && (row.status != Dead ==> row.retryCount == 0 || row.retryCount < cfg.maxRetries)
    && (row.status == Dead ==> 1 <= row.retryCount <= ClaimLimit(cfg))
    && row.attempts <= Budget(cfg, row.claims)
    && (row.status == Processed && cfg.retryAttempts >= 1 ==> row.acked)
    && (row.status == Dead ==> row.refused || row.retryCount == ClaimLimit(cfg))
    && (row.acked ==> row.status == Processing || row.status == Processed)
    && (row.refused ==> row.status == Processing || row.status == Dead)
  }

  predicate RowsOk(s: Inbox) {
    forall id :: id in s.rows ==> RowOk(s.cfg, s.rows[id])
  }

  /** A claimed message that has not been processed yet. */
  predicate Waiting(s: Inbox, id: Id) {
    && id in s.rows && s.rows[id].status == Processing && s.rows[id].attempts <= Budget(s.cfg, s.rows[id].retryCount)
    && !s.rows[id].acked && !s.rows[id].refused
  }

  predicate WorkerOk(s: Inbox, state: Worker) {
    match state
    case Idle => true
    case Locking(ids) => forall id :: id in ids ==> id in s.rows && s.rows[id].status == Pending
    case Working(todo) => NoDup(todo) && forall id :: id in todo ==> Waiting(s, id)
    case Handled(id, outcome, todo) =>
      && NoDup(todo) && (forall other :: other in todo ==> Waiting(s, other)) && id !in todo
      && id in s.rows && s.rows[id].status == Processing
      && Follows(s.cfg, s.rows[id], outcome)
  }

  /** The outcome is what the answers demand: an acknowledged message is done, a refused one has failed for good. */
  predicate Follows(cfg: Config, row: Row, outcome: Outcome) {
    && (outcome == Done && cfg.retryAttempts >= 1 ==> row.acked)
    && (row.acked ==> outcome == Done)
    && (row.refused <==> outcome == Failure(true))
  }

  predicate Holds(state: Worker, id: Id) {
    match state
    case Idle => false
    case Locking(ids) => id in ids
    case Working(todo) => id in todo
    case Handled(done, _, todo) => id == done || id in todo
  }

  /** Every row is in the hands of at most one worker. */
  ghost predicate Exclusive(s: Inbox) {
    forall a, b, id :: a in s.workers && b in s.workers && Holds(s.workers[a], id) && Holds(s.workers[b], id) ==> a == b
  }

  predicate WorkersOk(s: Inbox) {
    forall w :: w in s.workers ==> WorkerOk(s, s.workers[w])
  }

  predicate KeysUnique(rows: map<Id, Row>) {
    forall a, b :: a in rows && b in rows && rows[a].key == rows[b].key ==> a == b
  }

  ghost predicate Sound(s: Inbox) {
    RowsOk(s) && WorkersOk(s) && Exclusive(s) && KeysUnique(s.rows)
  }

  // Single rows.

  lemma BudgetGrows(cfg: Config, claims: nat)
    ensures Budget(cfg, claims + 1) == Budget(cfg, claims) + Max(0, cfg.retryAttempts)
  {}

  lemma ClaimedOk(cfg: Config, row: Row)
    requires RowOk(cfg, row) && row.status == Pending
    ensures RowOk(cfg, Claimed(row)) && Claimed(row).attempts <= Budget(cfg, Claimed(row).retryCount)
    ensures !row.acked && !row.refused
  {
    BudgetGrows(cfg, row.claims);
  }

  lemma TriedOk(cfg: Config, row: Row, tries: seq<Attempt>)
    requires RowOk(cfg, row) && row.status == Processing && row.attempts <= Budget(cfg, row.retryCount)
    requires !row.acked && !row.refused
    ensures var row' := Tried(cfg, row, tries);
      RowOk(cfg, row') && row'.status == Processing && Follows(cfg, row', Verdict(cfg, row, tries))
  {
    RetryBounds(cfg.retryAttempts, tries);
    BudgetGrows(cfg, row.retryCount);
  }

  lemma SettledOk(cfg: Config, row: Row, outcome: Outcome)
    requires RowOk(cfg, row) && row.status == Processing
    requires Follows(cfg, row, outcome)
    ensures RowOk(cfg, Settled(cfg, row, outcome))
  {}

  // Events.

  /** A step of worker `w`: other workers and the rows they hold stay as they are. */
  predicate Mine(s: Inbox, s': Inbox, w: Id) {
    && s'.cfg == s.cfg && w in s'.workers && s'.workers.Keys == s.workers.Keys + {w}
    && (forall other :: other in s.workers && other != w ==> s'.workers[other] == s.workers[other])
    && s'.rows.Keys == s.rows.Keys
    && (forall id :: id in s.rows && s'.rows[id] != s.rows[id] ==> w in s.workers && Holds(s.workers[w], id))
  }

  /** The rows a worker holds did not change. */
  lemma WorkerStays(s: Inbox, s': Inbox, state: Worker)
    requires WorkerOk(s, state) && s'.cfg == s.cfg
    requires forall id :: id in s.rows && Holds(state, id) ==> id in s'.rows && s'.rows[id] == s.rows[id]
    ensures WorkerOk(s', state)
  {}

  lemma WorkersAfter(s: Inbox, s': Inbox, w: Id)
    requires Sound(s) && Mine(s, s', w) && WorkerOk(s', s'.workers[w])
    ensures WorkersOk(s')
  {
    forall other | other in s'.workers && other != w ensures WorkerOk(s', s'.workers[other]) {
      forall id | id in s.rows && Holds(s.workers[other], id) ensures id in s'.rows && s'.rows[id] == s.rows[id] {}
      WorkerStays(s, s', s.workers[other]);
    }
  }

  lemma ExclusiveAfter(s: Inbox, s': Inbox, w: Id)
    requires Exclusive(s) && Mine(s, s', w)
    requires forall id, other :: Holds(s'.workers[w], id) && other in s.workers && other != w ==>
      !Holds(s.workers[other], id)
    ensures Exclusive(s')
  {
    forall a, b, id | a in s'.workers && b in s'.workers && Holds(s'.workers[a], id) && Holds(s'.workers[b], id)
      ensures a == b
    {
      if a != w && b != w { assert Holds(s.workers[a], id) && Holds(s.workers[b], id); }
    }
  }

  /** What `w` holds now it held before. */
  lemma HoldsLess(s: Inbox, s': Inbox, w: Id)
    requires Exclusive(s) && Mine(s, s', w)
    requires forall id :: Holds(s'.workers[w], id) ==> w in s.workers && Holds(s.workers[w], id)
    ensures Exclusive(s')
  {
    ExclusiveAfter(s, s', w);
  }

  lemma KeysFrame(rows: map<Id, Row>, rows': map<Id, Row>)
    requires KeysUnique(rows) && rows'.Keys == rows.Keys && forall id :: id in rows ==> rows'[id].key == rows[id].key
    ensures KeysUnique(rows')
  {}

  lemma StoreSound(s: Inbox, e: Event)
    requires Sound(s) && e.Store?
    ensures Sound(Step(s, e))
  {
    var s' := DoStore(s, e.id, e.key, e.kind, e.payload, e.at);
    if s' != s {
      forall w | w in s.workers ensures WorkerOk(s', s.workers[w]) {
        WorkerStays(s, s', s.workers[w]);
      }
    }
  }

  lemma LockSound(s: Inbox, w: Id, ids: set<Id>)
    requires Sound(s)
    ensures Sound(DoLock(s, w, ids))
  {
    var s' := DoLock(s, w, ids);
    if WorkerOf(s, w) == Idle && Lockable(s, ids) {
      WorkersAfter(s, s', w);
      forall id, other | id in ids && other in s.workers && other != w ensures !Holds(s.workers[other], id) {
        assert Available(s, id) && WorkerOk(s, s.workers[other]);
      }
      ExclusiveAfter(s, s', w);
    }
  }

  lemma ClaimRows(s: Inbox, w: Id, order: seq<Id>)
    requires Sound(s) && WorkerOf(s, w).Locking? && Lists(order, WorkerOf(s, w).ids)
    ensures var s' := DoClaim(s, w, order);
      RowsOk(s') && WorkerOk(s', s'.workers[w]) && Mine(s, s', w) && KeysUnique(s'.rows)
  {
    var s' := DoClaim(s, w, order);
    assert WorkerOk(s, s.workers[w]);
    forall id | id in s'.rows ensures RowOk(s.cfg, s'.rows[id]) && (id in order ==> Waiting(s', id)) {
      if id in s.workers[w].ids { ClaimedOk(s.cfg, s.rows[id]); }
    }
    KeysFrame(s.rows, s'.rows);
  }

  lemma ClaimSound(s: Inbox, w: Id, order: seq<Id>)
    requires Sound(s)
    ensures Sound(DoClaim(s, w, order))
  {
    if WorkerOf(s, w).Locking? && Lists(order, WorkerOf(s, w).ids) {
      ClaimRows(s, w, order);
      WorkersAfter(s, DoClaim(s, w, order), w);
      HoldsLess(s, DoClaim(s, w, order), w);
    }
  }

  lemma ProcessOwn(s: Inbox, w: Id, tries: seq<Attempt>)
    requires WorkersOk(s) && RowsOk(s) && WorkerOf(s, w).Working? && s.workers[w].todo != []
    ensures var s' := DoProcess(s, w, tries); WorkerOk(s', s'.workers[w]) && RowsOk(s')
  {
    var s', todo := DoProcess(s, w, tries), s.workers[w].todo;
    assert WorkerOk(s, s.workers[w]) && Waiting(s, todo[0]);
    TriedOk(s.cfg, s.rows[todo[0]], tries);
    forall other | other in todo[1..] ensures Waiting(s', other) && other != todo[0] {
      assert other in todo && Waiting(s, other);
    }
  }

  lemma ProcessSound(s: Inbox, w: Id, tries: seq<Attempt>)
    requires Sound(s)
    ensures Sound(DoProcess(s, w, tries))
  {
    var s' := DoProcess(s, w, tries);
    if WorkerOf(s, w).Working? {
      var todo := s.workers[w].todo;
      assert WorkerOk(s, s.workers[w]);
      if todo != [] {
        assert Waiting(s, todo[0]);
        ProcessOwn(s, w, tries);
      }
      WorkersAfter(s, s', w);
      HoldsLess(s, s', w);
      KeysFrame(s.rows, s'.rows);
    }
  }

  lemma MarkOwn(s: Inbox, w: Id, ok: bool)
    requires WorkersOk(s) && RowsOk(s) && WorkerOf(s, w).Handled?
    ensures var s' := DoMark(s, w, ok); WorkerOk(s', s'.workers[w]) && RowsOk(s')
  {
    var s' := DoMark(s, w, ok);
    assert WorkerOk(s, s.workers[w]);
    SettledOk(s.cfg, s.rows[s.workers[w].id], s.workers[w].outcome);
    forall other | other in s.workers[w].todo ensures Waiting(s', other) {
      assert Waiting(s, other);
    }
  }

  lemma MarkIsMine(s: Inbox, w: Id, ok: bool)
    requires WorkerOf(s, w).Handled?
    ensures Mine(s, DoMark(s, w, ok), w)
    ensures forall id :: Holds(DoMark(s, w, ok).workers[w], id) ==> Holds(s.workers[w], id)
    ensures forall id :: id in s.rows ==> DoMark(s, w, ok).rows[id].key == s.rows[id].key
  {}

  lemma MarkSound(s: Inbox, w: Id, ok: bool)
    requires Sound(s)
    ensures Sound(DoMark(s, w, ok))
  {
    var s' := DoMark(s, w, ok);
    if WorkerOf(s, w).Handled? {
      MarkIsMine(s, w, ok);
      MarkOwn(s, w, ok);
      WorkersAfter(s, s', w);
      HoldsLess(s, s', w);
      KeysFrame(s.rows, s'.rows);
    }
  }

  lemma CrashSound(s: Inbox, w: Id)
    requires Sound(s)
    ensures Sound(DoCrash(s, w))
  {
    WorkersAfter(s, DoCrash(s, w), w);
    HoldsLess(s, DoCrash(s, w), w);
  }

  lemma {:induction false} StepSound(s: Inbox, e: Event)
    requires Sound(s)
    ensures Sound(Step(s, e))
  {
    match e
    case Store(_, _, _, _, _) => StoreSound(s, e);
    case Lock(w, ids) => LockSound(s, w, ids);
    case Claim(w, order) => ClaimSound(s, w, order);
    case Process(w, tries) => ProcessSound(s, w, tries);
    case Mark(w, ok) => MarkSound(s, w, ok);
    case Crash(w) => CrashSound(s, w);
  }

  lemma StepConfig(s: Inbox, e: Event)
    ensures Step(s, e).cfg == s.cfg
  {}

  lemma {:induction false} RunsSound(cfg: Config, es: seq<Event>)
    ensures Sound(Run(INIT(cfg), es)) && Run(INIT(cfg), es).cfg == cfg
  {
    if es != [] {
      RunsSound(cfg, es[..|es| - 1]);
      StepSound(Run(INIT(cfg), es[..|es| - 1]), es[|es| - 1]);
      StepConfig(Run(INIT(cfg), es[..|es| - 1]), es[|es| - 1]);
    }
  }
}
