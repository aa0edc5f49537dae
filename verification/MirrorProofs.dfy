/** Every run of concurrent webhook handlers is explained by processing the webhooks one at a time. */
module MirrorProofs {
  import opened Base
  import opened Transactions
  import opened RowStore
  import opened Mirror

  /** What a handler read is an earlier version of the row, or still the row. */
  predicate Sees(l: State, s: Session) {
    var id := s.w.transactionId;
    && id in l.mirror.payments && s.seenVersion <= Version(l.locks, id)
    && (s.seenVersion == Version(l.locks, id) ==> l.mirror.payments[id] == s.seen)
    && PlanFor(s.seen, s.w).Write?
  }

  /** A handler that has written holds the lock, and its image was made from the current row. */
  predicate Owns(l: State, sid: Id, s: Session) {
    var id := s.w.transactionId;
    !s.stage.Reading? ==>
      && id in l.locks.holder && l.locks.holder[id] == sid
      && id in l.locks.staged && l.locks.staged[id] == Planned(s)
      && s.seenVersion == Version(l.locks, id)
  }

  predicate Sessions(l: State) {
    forall sid :: sid in l.sessions ==> Sees(l, l.sessions[sid]) && Owns(l, sid, l.sessions[sid])
  }

  predicate Backed(l: State) {
    && l.locks.staged.Keys <= l.locks.holder.Keys
    && forall id :: id in l.locks.holder ==>
         var sid := l.locks.holder[id];
         sid in l.sessions && l.sessions[sid].w.transactionId == id && !l.sessions[sid].stage.Reading?
  }

  predicate SameInsert(a: Session, b: Session) {
    a.stage.Inserted? && b.stage.Inserted? && EventOfSession(a) == EventOfSession(b)
  }

  /** Uncommitted events are new, and different from each other. */
  predicate Fresh(l: State) {
    && (forall sid :: sid in l.sessions && l.sessions[sid].stage.Inserted? ==>
         EventOfSession(l.sessions[sid]) !in l.mirror.events)
    && (forall a, b :: a in l.sessions && b in l.sessions && a != b ==> !SameInsert(l.sessions[a], l.sessions[b]))
  }

  predicate Coherent(l: State) {
    Sessions(l) && Backed(l) && Fresh(l)
  }

  /** Nothing visible happened, or one operation took place atomically with the reply on record. */
  predicate Explained(l: State, l': State) {
    || (l'.history == l.history && l'.mirror == l.mirror)
    || (|l'.history| == |l.history| + 1 && l'.history[..|l.history|] == l.history
        && var en := l'.history[|l.history|]; Do(l.mirror, en.op) == Outcome(en.reply, l'.mirror))
  }

  // Each primitive keeps each part of coherence.

  lemma LoggedCoherent(l: State, op: Op, reply: Reply)
    requires Coherent(l)
    ensures Coherent(Logged(l, op, reply))
  {}

  lemma OpenSessions(l: State, sid: Id, s: Session)
    requires Sessions(l) && Backed(l) && sid !in l.sessions && Sees(l, s) && s.stage.Reading?
    ensures Sessions(Open(l, sid, s)) && Backed(Open(l, sid, s))
  {}

  lemma OpenFresh(l: State, sid: Id, s: Session)
    requires Fresh(l) && sid !in l.sessions && s.stage.Reading?
    ensures Fresh(Open(l, sid, s))
  {}

  lemma BeginCoherent(l: State, sid: Id, w: Webhook)
    requires Coherent(l)
    ensures Coherent(DoBegin(l, sid, w))
  {
    var id := w.transactionId;
    if sid !in l.sessions && id in l.mirror.payments {
      var p := l.mirror.payments[id];
      var s := Session(w, p, Version(l.locks, id), Reading);
      match PlanFor(p, w)
      case Stop(reply) => LoggedCoherent(l, Deliver(w), reply);
      case Write(_) => OpenSessions(l, sid, s); OpenFresh(l, sid, s);
    }
  }

  lemma AdvanceSessions(l: State, sid: Id, stage: Stage)
    requires Sessions(l) && Backed(l) && sid in l.sessions
    requires !l.sessions[sid].stage.Reading? && !stage.Reading?
    ensures Sessions(Advance(l, sid, stage)) && Backed(Advance(l, sid, stage))
  {}

  lemma InsertFresh(l: State, sid: Id)
    requires Fresh(l) && sid in l.sessions
    requires EventOfSession(l.sessions[sid]) !in l.mirror.events && !EventInFlight(l, EventOfSession(l.sessions[sid]))
    ensures Fresh(Advance(l, sid, Inserted))
  {}

  lemma WriteOther(l: State, sid: Id, other: Id)
    requires Sessions(l) && sid in l.sessions && other in l.sessions && other != sid
    requires Free(l.locks, sid, l.sessions[sid].w.transactionId)
    ensures Sees(WriteRow(l, sid), l.sessions[other]) && Owns(WriteRow(l, sid), other, l.sessions[other])
  {}

  lemma WriteCoherent(l: State, sid: Id)
    requires Coherent(l) && sid in l.sessions
    requires var s := l.sessions[sid];
      s.stage.Reading? && Free(l.locks, sid, s.w.transactionId) && Version(l.locks, s.w.transactionId) == s.seenVersion
    ensures Coherent(WriteRow(l, sid))
  {
    forall other | other in l.sessions && other != sid
      ensures Sees(WriteRow(l, sid), l.sessions[other]) && Owns(WriteRow(l, sid), other, l.sessions[other])
    {
      WriteOther(l, sid, other);
    }
  }

  lemma RollbackOther(l: State, sid: Id, other: Id)
    requires Sessions(l) && sid in l.sessions && other in l.sessions && other != sid
    ensures Sees(Rollback(l, sid), l.sessions[other]) && Owns(Rollback(l, sid), other, l.sessions[other])
  {}

  lemma RollbackCoherent(l: State, sid: Id)
    requires Coherent(l) && sid in l.sessions
    ensures Coherent(Rollback(l, sid))
  {
    forall other | other in l.sessions && other != sid
      ensures Sees(Rollback(l, sid), l.sessions[other]) && Owns(Rollback(l, sid), other, l.sessions[other])
    {
      RollbackOther(l, sid, other);
    }
  }

  /** A commit leaves every other handler what it relied on: stale readers notice the new version. */
  lemma PublishOther(l: State, sid: Id, other: Id)
    requires Sessions(l) && CanCommit(l, sid) && other in l.sessions && other != sid
    ensures Sees(Publish(l, sid), l.sessions[other]) && Owns(Publish(l, sid), other, l.sessions[other])
  {}

  lemma PublishFresh(l: State, sid: Id)
    requires Fresh(l) && CanCommit(l, sid)
    ensures Fresh(Publish(l, sid))
  {
    forall other | other in l.sessions && other != sid && l.sessions[other].stage.Inserted?
      ensures EventOfSession(l.sessions[other]) !in Publish(l, sid).mirror.events
    {
      assert !SameInsert(l.sessions[sid], l.sessions[other]);
    }
  }

  lemma PublishBacked(l: State, sid: Id)
    requires Backed(l) && Sessions(l) && CanCommit(l, sid)
    ensures Backed(Publish(l, sid))
  {}

  lemma PublishCoherent(l: State, sid: Id)
    requires Coherent(l) && CanCommit(l, sid)
    ensures Coherent(Publish(l, sid))
  {
    forall other | other in l.sessions && other != sid
      ensures Sees(Publish(l, sid), l.sessions[other]) && Owns(Publish(l, sid), other, l.sessions[other])
    {
      PublishOther(l, sid, other);
    }
    PublishFresh(l, sid);
    PublishBacked(l, sid);
  }

  /** A single statement rewrites at most row `id`, and stores no event. */
  predicate TouchesOnly(m: Mirror, m': Mirror, id: Id) {
    && m'.events == m.events
    && forall k :: k in m.payments ==> k in m'.payments && (k != id ==> m'.payments[k] == m.payments[k])
  }

  lemma AutocommitSessions(l: State, m: Mirror, id: Id)
    requires Sessions(l) && id !in l.locks.holder && TouchesOnly(l.mirror, m, id)
    ensures Sessions(Autocommit(l, m, id))
  {}

  lemma AutocommitCoherent(l: State, m: Mirror, id: Id)
    requires Coherent(l) && id !in l.locks.holder && TouchesOnly(l.mirror, m, id)
    ensures Coherent(Autocommit(l, m, id))
  {
    AutocommitSessions(l, m, id);
  }

  lemma {:induction false} StepCoherent(l: State, e: Event)
    requires Coherent(l)
    ensures Coherent(Step(l, e))
  {
    match e
    case Begin(sid, w) => BeginCoherent(l, sid, w);
    case UpdateRow(sid) =>
      if sid in l.sessions && l.sessions[sid].stage.Reading? {
        RollbackCoherent(l, sid);
        if DoUpdateRow(l, sid) == WriteRow(l, sid) && Free(l.locks, sid, l.sessions[sid].w.transactionId)
          && Version(l.locks, l.sessions[sid].w.transactionId) == l.sessions[sid].seenVersion
        {
          WriteCoherent(l, sid);
        }
      }
    case InsertEvent(sid) => InsertCoherent(l, sid);
    case Commit(sid) =>
      if CanCommit(l, sid) {
        PublishCoherent(l, sid);
        LoggedCoherent(Publish(l, sid), Deliver(l.sessions[sid].w), Applied);
      }
    case Abort(sid) => if sid in l.sessions { RollbackCoherent(l, sid); }
    case Alone(op) =>
      if !op.Deliver? && op.id !in l.locks.holder {
        AutocommitCoherent(l, Do(l.mirror, op).mirror, op.id);
        LoggedCoherent(Autocommit(l, Do(l.mirror, op).mirror, op.id), op, Do(l.mirror, op).reply);
      }
  }

  lemma InsertCoherent(l: State, sid: Id)
    requires Coherent(l)
    ensures Coherent(DoInsertEvent(l, sid))
  {
    if sid in l.sessions && l.sessions[sid].stage.Written? && !EventInFlight(l, EventOfSession(l.sessions[sid])) {
      if EventOfSession(l.sessions[sid]) in l.mirror.events {
        RollbackCoherent(l, sid);
        LoggedCoherent(Rollback(l, sid), Deliver(l.sessions[sid].w), AlreadyStored);
      } else {
        AdvanceSessions(l, sid, Inserted);
        InsertFresh(l, sid);
      }
    }
  }

  /** A handler that has written still sees the committed row. */
  lemma WriterSeesCurrent(l: State, sid: Id)
    requires Coherent(l) && sid in l.sessions && !l.sessions[sid].stage.Reading?
    ensures var s := l.sessions[sid]; var id := s.w.transactionId;
      && id in l.mirror.payments && l.mirror.payments[id] == s.seen && PlanFor(s.seen, s.w) == Write(Planned(s))
      && id in l.locks.staged && l.locks.staged[id] == Planned(s)
      && (s.stage.Inserted? ==> EventOfSession(s) !in l.mirror.events)
  {
    assert Sees(l, l.sessions[sid]) && Owns(l, sid, l.sessions[sid]);
  }

  lemma BeginExplained(l: State, sid: Id, w: Webhook)
    ensures Explained(l, DoBegin(l, sid, w))
  {}

  lemma InsertExplained(l: State, sid: Id)
    requires Coherent(l)
    ensures Explained(l, DoInsertEvent(l, sid))
  {
    if sid in l.sessions && l.sessions[sid].stage.Written? { WriterSeesCurrent(l, sid); }
  }

  lemma CommitExplained(l: State, sid: Id)
    requires Coherent(l)
    ensures Explained(l, DoCommit(l, sid))
  {
    if CanCommit(l, sid) { WriterSeesCurrent(l, sid); }
  }

  lemma {:induction false} StepExplained(l: State, e: Event)
    requires Coherent(l)
    ensures Explained(l, Step(l, e))
  {
    match e
    case Begin(sid, w) => BeginExplained(l, sid, w);
    case InsertEvent(sid) => InsertExplained(l, sid);
    case Commit(sid) => CommitExplained(l, sid);
    case _ =>
  }

  lemma {:induction false} HonestExtend(h: seq<Entry>, en: Entry)
    requires Honest(h) && Do(After(h), en.op).reply == en.reply
    ensures Honest(h + [en]) && After(h + [en]) == Do(After(h), en.op).mirror
  {
    assert (h + [en])[..|h|] == h;
  }

  /** Whatever the interleaving of handlers and unguarded writes, the mirror and every answer are those of the
      recorded operations done one after the other. */
  lemma {:induction false} Linearizable(es: seq<Event>)
    ensures var l := Run(INIT, es); Coherent(l) && Honest(l.history) && After(l.history) == l.mirror
  {
    if es != [] {
      var l := Run(INIT, es[..|es| - 1]);
      Linearizable(es[..|es| - 1]);
      StepCoherent(l, es[|es| - 1]);
      StepExplained(l, es[|es| - 1]);
      var l' := Step(l, es[|es| - 1]);
      if l'.history != l.history {
        var en := l'.history[|l.history|];
        assert l'.history == l.history + [en];
        HonestExtend(l.history, en);
      }
    }
  }
}
