/** The inbox drains under any number of workers: as long as none crashes and no row write fails, no message is
    lost from sight, something can always be done, and only so much can be done. */
module InboxDrain {
  import opened Base
  import opened Inbox
  import opened InboxProofs
  import opened InboxTheorems

  // Nothing is orphaned.

  ghost predicate Held(s: Inbox, id: Id) {
    exists w :: w in s.workers && Holds(s.workers[w], id)
  }

  predicate IsProcessing(s: Inbox, id: Id) {
    id in s.rows && s.rows[id].status == Processing
  }

  /** Every row marked as being processed is in some worker's hands. */
  ghost predicate NoOrphans(s: Inbox) {
    forall id :: IsProcessing(s, id) ==> Held(s, id)
  }

  /** Neither a crash nor a failed write of a processed message. */
  predicate Harmless(e: Event) {
    !e.Crash? && (e.Mark? ==> e.ok)
  }

  /** Rows held before, and rows newly marked, are held after. */
  lemma NoOrphansAfter(s: Inbox, s': Inbox, w: Id)
    requires NoOrphans(s) && w in s'.workers
    requires forall other :: other in s.workers && other != w ==>
      other in s'.workers && s'.workers[other] == s.workers[other]
    requires forall id :: IsProcessing(s', id) && !IsProcessing(s, id) ==> Holds(s'.workers[w], id)
    requires w in s.workers ==>
      forall id :: Holds(s.workers[w], id) && IsProcessing(s', id) ==> Holds(s'.workers[w], id)
    ensures NoOrphans(s')
  {
    forall id | IsProcessing(s', id) ensures Held(s', id) {
      if IsProcessing(s, id) {
        var v :| v in s.workers && Holds(s.workers[v], id);
        assert v in s'.workers && Holds(s'.workers[v], id);
      } else {
        assert Holds(s'.workers[w], id);
      }
    }
  }

  lemma ClaimLeavesNoOrphans(s: Inbox, w: Id, order: seq<Id>)
    requires NoOrphans(s)
    ensures NoOrphans(DoClaim(s, w, order))
  {
    if WorkerOf(s, w).Locking? && Lists(order, WorkerOf(s, w).ids) { NoOrphansAfter(s, DoClaim(s, w, order), w); }
  }

  lemma ProcessLeavesNoOrphans(s: Inbox, w: Id, tries: seq<Attempt>)
    requires NoOrphans(s) && WorkersOk(s)
    ensures NoOrphans(DoProcess(s, w, tries))
  {
    if WorkerOf(s, w).Working? {
      var todo := s.workers[w].todo;
      assert WorkerOk(s, s.workers[w]);
      assert todo != [] ==> Waiting(s, todo[0]);
      NoOrphansAfter(s, DoProcess(s, w, tries), w);
    }
  }

  lemma MarkLeavesNoOrphans(s: Inbox, w: Id)
    requires NoOrphans(s) && WorkersOk(s)
    ensures NoOrphans(DoMark(s, w, true))
  {
    if WorkerOf(s, w).Handled? {
      assert WorkerOk(s, s.workers[w]);
      NoOrphansAfter(s, DoMark(s, w, true), w);
    }
  }

  lemma LockLeavesNoOrphans(s: Inbox, w: Id, ids: set<Id>)
    requires NoOrphans(s)
    ensures NoOrphans(DoLock(s, w, ids))
  {
    if WorkerOf(s, w) == Idle && Lockable(s, ids) { NoOrphansAfter(s, DoLock(s, w, ids), w); }
  }

  lemma StoreLeavesNoOrphans(s: Inbox, e: Event)
    requires NoOrphans(s) && e.Store?
    ensures NoOrphans(Step(s, e))
  {
    forall id | IsProcessing(Step(s, e), id) ensures Held(Step(s, e), id) {
      assert IsProcessing(s, id) && Held(s, id);
      var w :| w in s.workers && Holds(s.workers[w], id);
    }
  }

  lemma {:induction false} StepLeavesNoOrphans(s: Inbox, e: Event)
    requires NoOrphans(s) && WorkersOk(s) && Harmless(e)
    ensures NoOrphans(Step(s, e))
  {
    match e
    case Store(_, _, _, _, _) => StoreLeavesNoOrphans(s, e);
    case Lock(w, ids) => LockLeavesNoOrphans(s, w, ids);
    case Claim(w, order) => ClaimLeavesNoOrphans(s, w, order);
    case Process(w, tries) => ProcessLeavesNoOrphans(s, w, tries);
    case Mark(w, ok) => MarkLeavesNoOrphans(s, w);
    case Crash(_) =>
  }

  lemma {:induction false} RunsLeaveNoOrphans(cfg: Config, es: seq<Event>)
    requires forall e :: e in es ==> Harmless(e)
    ensures NoOrphans(Run(INIT(cfg), es))
  {
    if es != [] {
      assert es[|es| - 1] in es;
      RunsLeaveNoOrphans(cfg, es[..|es| - 1]);
      RunsSound(cfg, es[..|es| - 1]);
      StepLeavesNoOrphans(Run(INIT(cfg), es[..|es| - 1]), es[|es| - 1]);
    }
  }

  /** In a run without crashes and failed writes, every row marked as being processed has exactly one claimant. */
  lemma {:induction false} ExactlyOneClaimant(cfg: Config, es: seq<Event>, id: Id)
    requires forall e :: e in es ==> Harmless(e)
    requires IsProcessing(Run(INIT(cfg), es), id)
    ensures var s := Run(INIT(cfg), es);
      exists w :: w in s.workers && Holds(s.workers[w], id) &&
        forall v :: v in s.workers && Holds(s.workers[v], id) ==> v == w
  {
    RunsLeaveNoOrphans(cfg, es);
    RunsSound(cfg, es);
    var s := Run(INIT(cfg), es);
    assert Held(s, id);
    var w :| w in s.workers && Holds(s.workers[w], id);
    assert forall v :: v in s.workers && Holds(s.workers[v], id) ==> v == w;
  }

  // Nothing is left.

  predicate AllIdle(s: Inbox) {
    forall w :: w in s.workers ==> s.workers[w] == Idle
  }

  predicate AllTerminal(s: Inbox) {
    forall id :: id in s.rows ==> Terminal(s.rows[id])
  }

  ghost predicate NothingAvailable(s: Inbox) {
    forall id :: !Available(s, id)
  }

  lemma QuietMeansSettled(s: Inbox)
    requires NoOrphans(s) && AllIdle(s) && NothingAvailable(s)
    ensures AllTerminal(s)
  {
    forall id | id in s.rows ensures Terminal(s.rows[id]) {
      assert !Available(s, id);
      IdleHoldNothing(s, id);
    }
  }

  lemma {:induction false} IdleHoldNothing(s: Inbox, id: Id)
    requires AllIdle(s)
    ensures !Held(s, id) && !RowLocked(s, id)
  {}

  /** Once all workers are idle and there is nothing to claim, every message is processed or failed for good. */
  lemma {:induction false} IdleMeansSettled(cfg: Config, es: seq<Event>)
    requires forall e :: e in es ==> Harmless(e)
    requires AllIdle(Run(INIT(cfg), es)) && NothingAvailable(Run(INIT(cfg), es))
    ensures AllTerminal(Run(INIT(cfg), es))
  {
    RunsLeaveNoOrphans(cfg, es);
    QuietMeansSettled(Run(INIT(cfg), es));
  }

  // How much there is left to do.

  ghost predicate BeingWritten(s: Inbox, id: Id) {
    exists w :: w in s.workers && s.workers[w].Handled? && s.workers[w].id == id
  }

  /** Four steps for each remaining claim of a row: lock, claim, process, write back. */
  ghost function StepsLeft(s: Inbox, id: Id): int
    requires id in s.rows
  {
    var row := s.rows[id];
    var claims := ClaimLimit(s.cfg) - row.retryCount;
    match row.status
    case Pending => if RowLocked(s, id) then 4 * claims - 1 else 4 * claims
    case Processing => if BeingWritten(s, id) then 4 * claims - 3 else 4 * claims - 2
    case _ => 0
  }

  ghost function Steps(s: Inbox): map<Id, int> {
    map id | id in s.rows :: StepsLeft(s, id)
  }

  ghost function Left(s: Inbox): int {
    Total(Steps(s))
  }

  /** The event gets work done: it locks or claims a batch that is not empty, processes a message or writes one back. */
  predicate Useful(s: Inbox, e: Event) {
    match e
    case Lock(w, ids) => WorkerOf(s, w) == Idle && Lockable(s, ids) && ids != {}
    case Claim(w, order) => WorkerOf(s, w).Locking? && Lists(order, WorkerOf(s, w).ids) && order != []
    case Process(w, _) => WorkerOf(s, w).Working? && WorkerOf(s, w).todo != []
    case Mark(w, ok) => ok && WorkerOf(s, w).Handled?
    case _ => false
  }

  predicate Neutral(e: Event) {
    Harmless(e) && !e.Store?
  }

  /** No row has more steps left, and one has fewer if the event is useful. */
  ghost predicate Lowers(s: Inbox, s': Inbox, useful: bool) {
    && s'.rows.Keys == s.rows.Keys
    && (forall id :: id in s.rows ==> StepsLeft(s', id) <= StepsLeft(s, id))
    && (useful ==> exists id :: id in s.rows && StepsLeft(s', id) < StepsLeft(s, id))
  }

  lemma LeftLowers(s: Inbox, s': Inbox, useful: bool)
    requires Lowers(s, s', useful)
    ensures Left(s') <= Left(s) - (if useful then 1 else 0)
  {
    TotalLowers(Steps(s'), Steps(s));
    if useful {
      var id :| id in s.rows && StepsLeft(s', id) < StepsLeft(s, id);
      assert Steps(s')[id] < Steps(s)[id];
    }
  }

  /** The parts of the state a row's steps depend on, other than the row itself. */
  lemma SameHands(s: Inbox, s': Inbox, w: Id, id: Id)
    requires w in s'.workers && forall other :: other != w ==> WorkerOf(s', other) == WorkerOf(s, other)
    requires (WorkerOf(s, w).Locking? && id in WorkerOf(s, w).ids) <==>
      (WorkerOf(s', w).Locking? && id in WorkerOf(s', w).ids)
    requires (WorkerOf(s, w).Handled? && WorkerOf(s, w).id == id) <==>
      (WorkerOf(s', w).Handled? && WorkerOf(s', w).id == id)
    ensures (RowLocked(s, id) <==> RowLocked(s', id)) && (BeingWritten(s, id) <==> BeingWritten(s', id))
  {
    if RowLocked(s, id) {
      var v :| v in s.workers && s.workers[v].Locking? && id in s.workers[v].ids;
      assert WorkerOf(s, v) == s.workers[v];
      assert WorkerOf(s', v).Locking? && id in WorkerOf(s', v).ids && v in s'.workers;
    }
    if RowLocked(s', id) {
      var v :| v in s'.workers && s'.workers[v].Locking? && id in s'.workers[v].ids;
      assert WorkerOf(s', v) == s'.workers[v];
      assert WorkerOf(s, v).Locking? && id in WorkerOf(s, v).ids && v in s.workers;
    }
    if BeingWritten(s, id) {
      var v :| v in s.workers && s.workers[v].Handled? && s.workers[v].id == id;
      assert WorkerOf(s, v) == s.workers[v];
      assert WorkerOf(s', v).Handled? && WorkerOf(s', v).id == id && v in s'.workers;
    }
    if BeingWritten(s', id) {
      var v :| v in s'.workers && s'.workers[v].Handled? && s'.workers[v].id == id;
      assert WorkerOf(s', v) == s'.workers[v];
      assert WorkerOf(s, v).Handled? && WorkerOf(s, v).id == id && v in s.workers;
    }
  }

  lemma LockLowers(s: Inbox, w: Id, ids: set<Id>)
    requires WorkerOf(s, w) == Idle && Lockable(s, ids)
    ensures Lowers(s, DoLock(s, w, ids), ids != {})
  {
    var s' := DoLock(s, w, ids);
    forall id | id in s.rows ensures StepsLeft(s', id) == StepsLeft(s, id) - (if id in ids then 1 else 0) {
      if id in ids {
        assert Available(s, id);
        assert s'.workers[w].Locking?;
        assert RowLocked(s', id);
      } else {
        SameHands(s, s', w, id);
      }
    }
    if ids != {} {
      var id :| id in ids;
      assert Available(s, id);
      assert StepsLeft(s', id) < StepsLeft(s, id);
    }
  }

  lemma ClaimLowersOne(s: Inbox, w: Id, order: seq<Id>, id: Id)
    requires Sound(s) && WorkerOf(s, w).Locking? && Lists(order, WorkerOf(s, w).ids) && id in s.rows
    ensures StepsLeft(DoClaim(s, w, order), id) == StepsLeft(s, id) - (if id in s.workers[w].ids then 1 else 0)
  {
    var s' := DoClaim(s, w, order);
    assert WorkerOk(s, s.workers[w]);
    if id in s.workers[w].ids {
      assert RowLocked(s, id);
      NobodyWrites(s, s', w, id);
    } else {
      SameHands(s, s', w, id);
    }
  }

  lemma ClaimLowers(s: Inbox, w: Id, order: seq<Id>)
    requires Sound(s) && WorkerOf(s, w).Locking? && Lists(order, WorkerOf(s, w).ids)
    ensures Lowers(s, DoClaim(s, w, order), order != [])
  {
    var s', ids := DoClaim(s, w, order), s.workers[w].ids;
    assert WorkerOk(s, s.workers[w]);
    forall id | id in s.rows ensures StepsLeft(s', id) == StepsLeft(s, id) - (if id in ids then 1 else 0) {
      ClaimLowersOne(s, w, order, id);
    }
    if order != [] { assert order[0] in ids && order[0] in s.rows; }
  }

  lemma NobodyWrites(s: Inbox, s': Inbox, w: Id, id: Id)
    requires WorkersOk(s) && id in s.rows && s.rows[id].status == Pending
    requires forall other :: other != w ==> WorkerOf(s', other) == WorkerOf(s, other)
    requires w in s'.workers && !s'.workers[w].Handled?
    ensures !BeingWritten(s', id)
  {
    forall v | v in s'.workers && s'.workers[v].Handled? ensures s'.workers[v].id != id {
      assert WorkerOf(s', v) == s'.workers[v] && WorkerOf(s, v) == s.workers[v];
      assert WorkerOk(s, s.workers[v]);
    }
  }

  lemma ProcessLowers(s: Inbox, w: Id, tries: seq<Attempt>)
    requires Sound(s) && WorkerOf(s, w).Working?
    ensures Lowers(s, DoProcess(s, w, tries), s.workers[w].todo != [])
  {
    var s', todo := DoProcess(s, w, tries), s.workers[w].todo;
    assert WorkerOk(s, s.workers[w]);
    if todo != [] {
      assert Waiting(s, todo[0]) && Holds(s.workers[w], todo[0]);
      NobodyElseWrites(s, w, todo[0]);
      assert BeingWritten(s', todo[0]) by { assert s'.workers[w].Handled? && s'.workers[w].id == todo[0]; }
      assert StepsLeft(s', todo[0]) == StepsLeft(s, todo[0]) - 1;
    }
    forall id | id in s.rows && (todo == [] || id != todo[0]) ensures StepsLeft(s', id) == StepsLeft(s, id) {
      SameHands(s, s', w, id);
    }
  }

  lemma NobodyElseWrites(s: Inbox, w: Id, id: Id)
    requires Exclusive(s) && w in s.workers && Holds(s.workers[w], id) && !s.workers[w].Handled?
    ensures !BeingWritten(s, id)
  {
    forall v | v in s.workers && s.workers[v].Handled? ensures s.workers[v].id != id {
      assert Holds(s.workers[v], s.workers[v].id);
    }
  }

  lemma MarkLowers(s: Inbox, w: Id)
    requires Sound(s) && WorkerOf(s, w).Handled?
    ensures Lowers(s, DoMark(s, w, true), true)
  {
    var s', done := DoMark(s, w, true), s.workers[w].id;
    assert WorkerOk(s, s.workers[w]);
    assert BeingWritten(s, done);
    assert RowOk(s.cfg, s.rows[done]);
    SettlingLowersWeight(s.cfg, s.rows[done], s.workers[w].outcome);
    assert StepsLeft(s', done) < StepsLeft(s, done);
    forall id | id in s.rows && id != done ensures StepsLeft(s', id) == StepsLeft(s, id) {
      SameHands(s, s', w, id);
    }
  }

  /** Every useful event leaves fewer steps, and no event but a new message, a crash or a failed write leaves more. */
  lemma {:induction false} StepLowers(s: Inbox, e: Event)
    requires Sound(s) && Neutral(e)
    ensures Left(Step(s, e)) <= Left(s) - (if Useful(s, e) then 1 else 0)
  {
    match e
    case Lock(w, ids) =>
      if WorkerOf(s, w) == Idle && Lockable(s, ids) { LockLowers(s, w, ids); LeftLowers(s, Step(s, e), ids != {}); }
    case Claim(w, order) =>
      if WorkerOf(s, w).Locking? && Lists(order, WorkerOf(s, w).ids) {
        ClaimLowers(s, w, order);
        LeftLowers(s, Step(s, e), order != []);
      }
    case Process(w, tries) =>
      if WorkerOf(s, w).Working? { ProcessLowers(s, w, tries); LeftLowers(s, Step(s, e), s.workers[w].todo != []); }
    case Mark(w, ok) =>
      if WorkerOf(s, w).Handled? { MarkLowers(s, w); LeftLowers(s, Step(s, e), true); }
    case Store(_, _, _, _, _) =>
    case Crash(_) =>
  }

  ghost function UsefulEvents(s: Inbox, es: seq<Event>): nat {
    if es == [] then 0
    else UsefulEvents(s, es[..|es| - 1]) + (if Useful(Run(s, es[..|es| - 1]), es[|es| - 1]) then 1 else 0)
  }

  /** Without new messages, crashes and failed writes, any number of workers do only so many useful steps. */
  lemma {:induction false} UsefulEventsAreBounded(cfg: Config, es: seq<Event>, more: seq<Event>)
    requires forall e :: e in more ==> Neutral(e)
    ensures UsefulEvents(Run(INIT(cfg), es), more) <= Left(Run(INIT(cfg), es)) - Left(Run(INIT(cfg), es + more))
  {
    if more == [] {
      assert es + more == es;
    } else {
      var most := more[..|more| - 1];
      assert (es + more)[..|es + more| - 1] == es + most;
      UsefulEventsAreBounded(cfg, es, most);
      RunAppend(INIT(cfg), es, most);
      RunsSound(cfg, es + most);
      assert more[|more| - 1] in more;
      StepLowers(Run(INIT(cfg), es + most), more[|more| - 1]);
    }
  }

  lemma LeftIsPositive(s: Inbox)
    requires RowsOk(s)
    ensures Left(s) >= 0
  {
    forall id | id in s.rows ensures StepsLeft(s, id) >= 0 {
      assert RowOk(s.cfg, s.rows[id]);
    }
    TotalMonotone(map[], Steps(s));
  }

  lemma {:induction false} Enumerate(ids: set<Id>) returns (order: seq<Id>)
    ensures Lists(order, ids)
  {
    order := [];
    var left := ids;
    while left != {}
      invariant left <= ids && NoDup(order)
      invariant forall id :: id in order ==> id in ids && id !in left
      invariant forall id :: id in ids && id !in left ==> id in order
      decreases |left|
    {
      var id :| id in left;
      order := order + [id];
      left := left - {id};
    }
  }

  /** As long as a message is neither processed nor failed, some worker can do a useful step: the one that has it, or,
      if nobody has it, any idle one. */
  lemma {:induction false} NotStuck(cfg: Config, es: seq<Event>, idle: Id, id: Id) returns (e: Event)
    requires cfg.batchSize >= 1 && forall x :: x in es ==> Harmless(x)
    requires WorkerOf(Run(INIT(cfg), es), idle) == Idle
    requires id in Run(INIT(cfg), es).rows && !Terminal(Run(INIT(cfg), es).rows[id])
    ensures Neutral(e) && Useful(Run(INIT(cfg), es), e)
  {
    var s := Run(INIT(cfg), es);
    RunsSound(cfg, es);
    RunsLeaveNoOrphans(cfg, es);
    if s.rows[id].status == Processing {
      assert Held(s, id);
      var w :| w in s.workers && Holds(s.workers[w], id);
      assert WorkerOk(s, s.workers[w]);
      e := if s.workers[w].Working? then Process(w, []) else Mark(w, true);
    } else if RowLocked(s, id) {
      var w :| w in s.workers && s.workers[w].Locking? && id in s.workers[w].ids;
      var order := Enumerate(s.workers[w].ids);
      assert order != [] by { assert id in order; }
      e := Claim(w, order);
    } else {
      assert Lockable(s, {id});
      e := Lock(idle, {id});
    }
  }

  /** No continuation does more useful steps than there were steps left. */
  lemma {:induction false} OnlySoMuchToDo(cfg: Config, es: seq<Event>, more: seq<Event>)
    requires forall e :: e in more ==> Neutral(e)
    ensures UsefulEvents(Run(INIT(cfg), es), more) <= Left(Run(INIT(cfg), es))
  {
    UsefulEventsAreBounded(cfg, es, more);
    RunsSound(cfg, es + more);
    LeftIsPositive(Run(INIT(cfg), es + more));
  }

  lemma {:induction false} OneUsefulStep(cfg: Config, es: seq<Event>, e: Event)
    requires Neutral(e) && Useful(Run(INIT(cfg), es), e)
    ensures 0 <= Left(Run(INIT(cfg), es + [e])) < Left(Run(INIT(cfg), es))
  {
    RunOne(INIT(cfg), es, e);
    RunsSound(cfg, es);
    StepLowers(Run(INIT(cfg), es), e);
    RunsSound(cfg, es + [e]);
    LeftIsPositive(Run(INIT(cfg), es + [e]));
  }

  lemma {:induction false} NextStep(cfg: Config, es: seq<Event>) returns (e: Event)
    requires cfg.batchSize >= 1 && (forall x :: x in es ==> Harmless(x)) && !AllTerminal(Run(INIT(cfg), es))
    ensures Neutral(e) && Useful(Run(INIT(cfg), es), e)
  {
    var s := Run(INIT(cfg), es);
    var id :| id in s.rows && !Terminal(s.rows[id]);
    var idle := FreshString(s.workers.Keys);
    e := NotStuck(cfg, es, idle, id);
  }

  /** So the inbox drains: useful steps lead to a state in which every message is processed or failed for good. */
  lemma {:induction false} Drains(cfg: Config, es: seq<Event>) returns (more: seq<Event>)
    requires cfg.batchSize >= 1 && forall e :: e in es ==> Harmless(e)
    ensures (forall e :: e in more ==> Neutral(e)) && AllTerminal(Run(INIT(cfg), es + more))
    decreases Left(Run(INIT(cfg), es))
  {
    if AllTerminal(Run(INIT(cfg), es)) {
      more := [];
      assert es + more == es;
    } else {
      var e := NextStep(cfg, es);
      OneUsefulStep(cfg, es, e);
      var rest := Drains(cfg, es + [e]);
      more := [e] + rest;
      assert es + more == es + [e] + rest;
    }
  }

  // Part of a run.

  /** From event n on there is nothing but neutral events. */
  predicate NeutralFrom(es: seq<Event>, n: nat) {
    forall i :: n <= i < |es| ==> Neutral(es[i])
  }

  lemma {:induction false} NeutralKeepsMeasure(cfg: Config, es: seq<Event>, n: nat)
    requires n <= |es| && NeutralFrom(es, n)
    ensures Measure(Run(INIT(cfg), es)) <= Measure(Run(INIT(cfg), es[..n]))
  {
    if n == |es| {
      assert es[..n] == es;
    } else {
      var most := es[..|es| - 1];
      assert most[..n] == es[..n];
      NeutralKeepsMeasure(cfg, most, n);
      RunsSound(cfg, most);
      StepMeasure(Run(INIT(cfg), most), es[|es| - 1]);
    }
  }

  lemma {:induction false} NeutralLeavesNoOrphans(cfg: Config, es: seq<Event>, n: nat)
    requires n <= |es| && NeutralFrom(es, n) && NoOrphans(Run(INIT(cfg), es[..n]))
    ensures NoOrphans(Run(INIT(cfg), es))
  {
    if n == |es| {
      assert es[..n] == es;
    } else {
      var most := es[..|es| - 1];
      assert most[..n] == es[..n];
      NeutralLeavesNoOrphans(cfg, most, n);
      RunsSound(cfg, most);
      StepLeavesNoOrphans(Run(INIT(cfg), most), es[|es| - 1]);
    }
  }
}
