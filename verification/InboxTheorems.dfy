/** What the inbox promises in every run of any number of workers. */
module InboxTheorems {
  import opened Base
  import opened Inbox
  import opened InboxProofs

  /** Every message is in the hands of at most one worker, and while a worker has it to process, it is marked so. */
  lemma {:induction false} ClaimsAreExclusive(cfg: Config, es: seq<Event>, a: Id, b: Id, id: Id)
    requires var s := Run(INIT(cfg), es);
      a in s.workers && b in s.workers && Holds(s.workers[a], id) && Holds(s.workers[b], id)
    ensures a == b
    ensures var s := Run(INIT(cfg), es);
      id in s.rows && s.rows[id].status == if s.workers[a].Locking? then Pending else Processing
  {
    RunsSound(cfg, es);
    var s := Run(INIT(cfg), es);
    assert WorkerOk(s, s.workers[a]);
    if s.workers[a].Working? || (s.workers[a].Handled? && id != s.workers[a].id) { assert Waiting(s, id); }
  }

  /** No message is claimed more than max(1, MaxRetries) times, nor sent more than RetryAttempts times for each
      claim. */
  lemma {:induction false} ClaimsAndRequestsAreBounded(cfg: Config, es: seq<Event>, id: Id)
    requires id in Run(INIT(cfg), es).rows
    ensures var row := Run(INIT(cfg), es).rows[id];
      && row.claims <= ClaimLimit(cfg)
      && row.attempts <= row.claims * Max(0, cfg.retryAttempts) <= ClaimLimit(cfg) * Max(0, cfg.retryAttempts)
  {
    RunsSound(cfg, es);
    var row := Run(INIT(cfg), es).rows[id];
    assert RowOk(cfg, row);
    MoreClaimsMoreRequests(cfg, row.claims, ClaimLimit(cfg));
  }

  lemma MoreClaimsMoreRequests(cfg: Config, a: nat, b: nat)
    requires a <= b
    ensures Budget(cfg, a) <= Budget(cfg, b)
  {
    var n := Max(0, cfg.retryAttempts);
    assert b * n == a * n + (b - a) * n;
  }

  /** With at least one attempt configured, a processed message was answered with success or conflict. */
  lemma {:induction false} ProcessedMeansAcknowledged(cfg: Config, es: seq<Event>, id: Id)
    requires cfg.retryAttempts >= 1
    requires id in Run(INIT(cfg), es).rows && Run(INIT(cfg), es).rows[id].status == Processed
    ensures Run(INIT(cfg), es).rows[id].acked
  {
    RunsSound(cfg, es);
    assert RowOk(cfg, Run(INIT(cfg), es).rows[id]);
  }

  /** In every run: a message that has failed for good was refused with an error no retry can mend, or has used up its
      retries; what was refused so, fails, and what was answered with success or conflict, is processed, as soon as
      the worker's write goes through. */
  lemma {:induction false} FailedMeansRefusedOrExhausted(cfg: Config, es: seq<Event>, id: Id)
    requires id in Run(INIT(cfg), es).rows
    ensures var row := Run(INIT(cfg), es).rows[id];
      && (row.status == Dead ==> row.refused || row.retryCount == (if cfg.maxRetries >= 1 then cfg.maxRetries else 1))
      && (row.refused ==> row.status == Dead || row.status == Processing)
      && (row.acked ==> row.status == Processed || row.status == Processing)
  {
    RunsSound(cfg, es);
    assert RowOk(cfg, Run(INIT(cfg), es).rows[id]);
  }

  lemma {:induction false} RunOne(s: Inbox, es: seq<Event>, e: Event)
    ensures Run(s, es + [e]) == Step(Run(s, es), e)
  {
    assert (es + [e])[..|es|] == es;
  }

  /** With none configured, the retry loop reports success without a request, and a message is processed unsent. */
  lemma {:induction false} ProcessedUnsent(cfg: Config) returns (es: seq<Event>)
    requires cfg.retryAttempts <= 0 && cfg.batchSize >= 1
    ensures var s := Run(INIT(cfg), es);
      "r" in s.rows && s.rows["r"].status == Processed && !s.rows["r"].acked && s.rows["r"].attempts == 0
  {
    var e1, e2, e3 := Store("r", "k", OrderUpdate, Some(Order("x")), 0), Lock("w", {"r"}), Claim("w", ["r"]);
    var e4, e5 := Process("w", []), Mark("w", true);
    es := [] + [e1] + [e2] + [e3] + [e4] + [e5];
    RunOne(INIT(cfg), [], e1);
    RunOne(INIT(cfg), [] + [e1], e2);
    RunOne(INIT(cfg), [] + [e1] + [e2], e3);
    RunOne(INIT(cfg), [] + [e1] + [e2] + [e3], e4);
    RunOne(INIT(cfg), [] + [e1] + [e2] + [e3] + [e4], e5);
    var s2 := SetWorker(INIT(cfg).(rows := map["r" := NewRow("k", OrderUpdate, Some(Order("x")), 0)]),
        "w", Locking({"r"}));
    assert Run(INIT(cfg), [] + [e1] + [e2]) == s2;
    assert Lists(["r"], {"r"});
  }

  /** Nobody has anything in hand, and every message is waiting. */
  predicate Untaken(s: Inbox) {
    && (forall id :: id in s.rows ==> s.rows[id].status == Pending)
    && forall w :: w in s.workers ==>
         match s.workers[w]
         case Idle => true
         case Locking(ids) => ids == {}
         case Working(todo) => todo == []
         case Handled(_, _, _) => false
  }

  lemma {:induction false} StepUntaken(s: Inbox, e: Event)
    requires Untaken(s) && s.cfg.batchSize < 1
    ensures Untaken(Step(s, e))
  {
    match e
    case Store(_, _, _, _, _) =>
    case Lock(_, _) =>
    case Claim(_, order) => assert order != [] ==> !Lists(order, {}) by { if order != [] { assert order[0] in order; } }
    case Process(_, _) =>
    case Mark(_, _) =>
    case Crash(_) =>
  }

  /** An empty batch claims nothing. */
  lemma {:induction false} NothingIsClaimed(cfg: Config, es: seq<Event>)
    requires cfg.batchSize < 1
    ensures Untaken(Run(INIT(cfg), es))
  {
    if es != [] {
      NothingIsClaimed(cfg, es[..|es| - 1]);
      RunsSound(cfg, es[..|es| - 1]);
      StepUntaken(Run(INIT(cfg), es[..|es| - 1]), es[|es| - 1]);
    }
  }

  /** Every processed message is an acknowledged one exactly when the configuration allows at least one attempt, or no
      message to be claimed at all. */
  lemma ProcessedMeansAcknowledgedIff(cfg: Config)
    ensures cfg.retryAttempts >= 1 || cfg.batchSize < 1 <==> AlwaysAcknowledged(cfg)
  {
    if cfg.batchSize < 1 {
      forall es, id | id in Run(INIT(cfg), es).rows ensures Run(INIT(cfg), es).rows[id].status == Pending {
        NothingIsClaimed(cfg, es);
      }
    } else if cfg.retryAttempts >= 1 {
      forall es, id | id in Run(INIT(cfg), es).rows && Run(INIT(cfg), es).rows[id].status == Processed
        ensures Run(INIT(cfg), es).rows[id].acked
      {
        ProcessedMeansAcknowledged(cfg, es, id);
      }
    } else {
      var es := ProcessedUnsent(cfg);
      assert !Run(INIT(cfg), es).rows["r"].acked;
    }
  }

  ghost predicate AlwaysAcknowledged(cfg: Config) {
    forall es, id :: id in Run(INIT(cfg), es).rows && Run(INIT(cfg), es).rows[id].status == Processed ==>
      Run(INIT(cfg), es).rows[id].acked
  }

  // Keys.

  lemma RowsPersist(s: Inbox, e: Event)
    ensures forall id :: id in s.rows ==> id in Step(s, e).rows && Step(s, e).rows[id].key == s.rows[id].key
  {}

  lemma StoreStores(s: Inbox, e: Event)
    requires e.Store? && e.id !in s.rows
    ensures KeyStored(Step(s, e).rows, e.key)
  {
    if !KeyStored(s.rows, e.key) { assert Step(s, e).rows[e.id].key == e.key; }
  }

  /** A key once stored has exactly one row from then on, whatever is stored after it. */
  lemma {:induction false} OneRowPerKey(cfg: Config, es: seq<Event>, more: seq<Event>, id: Id)
    requires id in Run(INIT(cfg), es).rows
    ensures var s, s' := Run(INIT(cfg), es), Run(INIT(cfg), es + more);
      && id in s'.rows && s'.rows[id].key == s.rows[id].key
      && forall other :: other in s'.rows && s'.rows[other].key == s.rows[id].key ==> other == id
  {
    if more == [] {
      assert es + more == es;
    } else {
      var most := es + more[..|more| - 1];
      assert (es + more)[..|es + more| - 1] == most;
      OneRowPerKey(cfg, es, more[..|more| - 1], id);
      RowsPersist(Run(INIT(cfg), most), more[|more| - 1]);
    }
    RunsSound(cfg, es + more);
  }

  // The inbox drains.

  /** How many more times the row may be written back. */
  function Weight(cfg: Config, row: Row): int {
    if Terminal(row) then 0 else ClaimLimit(cfg) - row.retryCount
  }

  ghost function Weights(s: Inbox): map<Id, int> {
    map id | id in s.rows :: Weight(s.cfg, s.rows[id])
  }

  ghost function Measure(s: Inbox): int {
    Total(Weights(s))
  }

  lemma WeightsPositive(s: Inbox)
    requires RowsOk(s)
    ensures NonNegative(Weights(s)) && Measure(s) >= 0
    ensures forall id :: id in s.rows && !Terminal(s.rows[id]) ==> Weights(s)[id] >= 1
  {
    forall id | id in s.rows ensures Weights(s)[id] >= 0 && (!Terminal(s.rows[id]) ==> Weights(s)[id] >= 1) {
      assert RowOk(s.cfg, s.rows[id]);
    }
    TotalMonotone(map[], Weights(s));
  }

  lemma SettlingLowersWeight(cfg: Config, row: Row, outcome: Outcome)
    requires RowOk(cfg, row) && row.status == Processing
    ensures Weight(cfg, Settled(cfg, row, outcome)) < Weight(cfg, row)
  {}

  /** Every row a worker writes back makes the measure smaller. */
  lemma MarkLowersMeasure(s: Inbox, w: Id)
    requires Sound(s) && WorkerOf(s, w).Handled?
    ensures Measure(DoMark(s, w, true)) < Measure(s)
  {
    var id, outcome := s.workers[w].id, s.workers[w].outcome;
    assert WorkerOk(s, s.workers[w]) && RowOk(s.cfg, s.rows[id]);
    SettlingLowersWeight(s.cfg, s.rows[id], outcome);
    OneRowChanges(s, DoMark(s, w, true), id, Settled(s.cfg, s.rows[id], outcome));
  }

  lemma OneRowChanges(s: Inbox, s': Inbox, id: Id, row: Row)
    requires id in s.rows && s'.rows == s.rows[id := row] && s'.cfg == s.cfg
    ensures Measure(s') == Measure(s) - Weight(s.cfg, s.rows[id]) + Weight(s.cfg, row)
  {
    TotalReplace(Weights(s), id, Weight(s.cfg, row));
    assert Weights(s') == Weights(s)[id := Weight(s.cfg, row)];
  }

  /** No event but a new message makes it larger. */
  lemma OthersKeepMeasure(s: Inbox, e: Event)
    requires WorkersOk(s) && !e.Store? && !(e.Mark? && e.ok)
    ensures Measure(Step(s, e)) == Measure(s)
  {
    match e
    case Claim(w, order) =>
      if WorkerOf(s, w).Locking? { assert WorkerOk(s, s.workers[w]); }
      assert Weights(DoClaim(s, w, order)) == Weights(s);
    case Process(w, tries) => assert Weights(DoProcess(s, w, tries)) == Weights(s);
    case Lock(w, ids) => assert Weights(DoLock(s, w, ids)) == Weights(s);
    case Mark(w, ok) => assert Weights(DoMark(s, w, ok)) == Weights(s);
    case Crash(w) => assert Weights(DoCrash(s, w)) == Weights(s);
    case Store(_, _, _, _, _) =>
  }

  lemma StepMeasure(s: Inbox, e: Event)
    requires Sound(s) && !e.Store?
    ensures Measure(Step(s, e)) <= Measure(s) - (if Writes(s, e) then 1 else 0)
  {
    if e.Mark? && e.ok {
      if WorkerOf(s, e.w).Handled? { MarkLowersMeasure(s, e.w); }
    } else {
      OthersKeepMeasure(s, e);
    }
  }

  /** The event writes a processed message back. */
  predicate Writes(s: Inbox, e: Event) {
    e.Mark? && e.ok && WorkerOf(s, e.w).Handled?
  }

  function WriteBacks(s: Inbox, es: seq<Event>): nat {
    if es == [] then 0
    else WriteBacks(s, es[..|es| - 1]) + (if Writes(Run(s, es[..|es| - 1]), es[|es| - 1]) then 1 else 0)
  }

  /** Without new messages, workers write back at most as many messages as the measure allows, crashes or not. */
  lemma {:induction false} WriteBacksAreBounded(cfg: Config, es: seq<Event>, more: seq<Event>)
    requires forall e :: e in more ==> !e.Store?
    ensures WriteBacks(Run(INIT(cfg), es), more) <= Measure(Run(INIT(cfg), es)) - Measure(Run(INIT(cfg), es + more))
  {
    if more == [] {
      assert es + more == es;
    } else {
      var most := more[..|more| - 1];
      assert (es + more)[..|es + more| - 1] == es + most;
      WriteBacksAreBounded(cfg, es, most);
      RunAppend(INIT(cfg), es, most);
      RunsSound(cfg, es + most);
      assert more[|more| - 1] in more;
      StepMeasure(Run(INIT(cfg), es + most), more[|more| - 1]);
    }
  }

  lemma {:induction false} RunAppend(s: Inbox, es: seq<Event>, more: seq<Event>)
    ensures Run(s, es + more) == Run(Run(s, es), more)
  {
    if more == [] {
      assert es + more == es;
    } else {
      assert (es + more)[..|es + more| - 1] == es + more[..|more| - 1];
      RunAppend(s, es, more[..|more| - 1]);
    }
  }

  /** When nothing is left of the measure, every message is processed or failed for good. */
  lemma SpentMeansSettled(s: Inbox)
    requires RowsOk(s) && Measure(s) <= 0
    ensures forall id :: id in s.rows ==> Terminal(s.rows[id])
  {
    WeightsPositive(s);
    forall id | id in s.rows ensures Terminal(s.rows[id]) {
      TotalSplit(Weights(s), id);
      TotalMonotone(Weights(s) - {id}, Weights(s));
    }
  }
}
