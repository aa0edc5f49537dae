/** The Kafka consumer loop and its retry and dead-letter middleware, over one partition. */
module Consumer {
  import opened Base

  /** One run of the handler, and whether the context ends during the wait that may follow a failure. */
  datatype Try = Try(ok: bool, cancelled: bool)

  datatype Result = Ok | Exhausted | Cancelled

  /** What a handler wrapped in WithRetry returns for one delivery, and how often it ran the handler. */
  function Retried(n: int, tries: seq<Try>): (Result, nat)
    decreases n
  {
    if n <= 0 then (Exhausted, 0)
    else
      var t := if tries == [] then Try(false, false) else tries[0];
      if t.ok then (Ok, 1)
      else if n == 1 then (Exhausted, 1)
      else if t.cancelled then (Cancelled, 1)
      else
        var rest := Retried(n - 1, if tries == [] then [] else tries[1..]);
        (rest.0, rest.1 + 1)
  }

  /** With at least one attempt allowed the handler runs between once and MaxAttempts times; without, never. */
  lemma {:induction false} RunsAreBounded(n: int, tries: seq<Try>)
    ensures var r := Retried(n, tries); if n >= 1 then 1 <= r.1 <= n else r == (Exhausted, 0)
    decreases n
  {
    if n > 1 { RunsAreBounded(n - 1, if tries == [] then [] else tries[1..]); }
  }

  /** All runs but the last failed; the delivery succeeds exactly when the last one did. */
  lemma {:induction false} LastRunDecides(n: int, tries: seq<Try>)
    requires 1 <= n <= |tries|
    ensures var r := Retried(n, tries);
      && 1 <= r.1 <= n
      && (forall i :: 0 <= i < r.1 - 1 ==> !tries[i].ok && !tries[i].cancelled)
      && (r.0 == Ok <==> tries[r.1 - 1].ok)
      && (r.0 == Exhausted ==> r.1 == n)
      && (r.0 == Cancelled ==> r.1 < n && tries[r.1 - 1].cancelled)
    decreases n
  {
    if n > 1 && !tries[0].ok && !tries[0].cancelled {
      LastRunDecides(n - 1, tries[1..]);
      var r := Retried(n - 1, tries[1..]);
      forall i | 0 <= i < r.1 ensures !tries[i].ok && !tries[i].cancelled {
        if i > 0 { assert tries[i] == tries[1..][i - 1]; }
      }
    }
  }

  /** The consumer passes the plain handler's error on, or runs it behind retry and dead-letter queue. */
  datatype Stack = Bare | Guarded(maxAttempts: int)

  datatype Stage = Fetching | HandledOk | HandledErr

  /** `position` is the next offset to fetch, `committed` the group's committed offset (everything below counts as
      done after a restart); `done` and `handed` record the offsets a handler run succeeded for and those given to
      the dead-letter publisher. */
  datatype State = State(stack: Stack, position: nat, committed: nat, stage: Stage, done: set<nat>, handed: set<nat>)

  function INIT(stack: Stack): State {
    State(stack, 0, 0, Fetching, {}, {})
  }

  datatype Event =
    | Handle(tries: seq<Try>)     // fetch the next message and hand it to the stack
    | Finish(commitOk: bool)      // commit, which may fail, or skip the commit after an error
    | Crash                       // at any point; the next start fetches from the committed offset

  function FirstTry(tries: seq<Try>): bool {
    tries != [] && tries[0].ok
  }

  function DoHandle(s: State, tries: seq<Try>): State {
    if s.stage != Fetching then s
    else match s.stack
      case Bare =>
        if FirstTry(tries) then s.(stage := HandledOk, done := s.done + {s.position}) else s.(stage := HandledErr)
      case Guarded(n) =>
        if Retried(n, tries).0 == Ok then s.(stage := HandledOk, done := s.done + {s.position})
        else s.(stage := HandledOk, handed := s.handed + {s.position})
  }

  function DoFinish(s: State, commitOk: bool): State {
    match s.stage
    case Fetching => s
    case HandledErr => s.(stage := Fetching, position := s.position + 1)
    case HandledOk =>
      s.(stage := Fetching, position := s.position + 1, committed := if commitOk then s.position + 1 else s.committed)
  }

  function Step(s: State, e: Event): State {
    match e
    case Handle(tries) => DoHandle(s, tries)
    case Finish(ok) => DoFinish(s, ok)
    case Crash => s.(stage := Fetching, position := s.committed)
  }

  function Run(s: State, es: seq<Event>): State {
    if es == [] then s else Step(Run(s, es[..|es| - 1]), es[|es| - 1])
  }

  predicate Resolved(s: State, offset: nat) {
    offset in s.done || offset in s.handed
  }

  /** Every offset at or below the committed one was handled successfully or handed to the dead-letter publisher. */
  predicate NoGap(s: State) {
    forall offset :: 0 <= offset < s.committed ==> Resolved(s, offset)
  }

  /** The guarded consumer has nothing unresolved behind it. */
  predicate Sound(s: State) {
    && s.committed <= s.position
    && (forall offset :: 0 <= offset < s.position ==> Resolved(s, offset))
    && (s.stage != Fetching ==> s.stage == HandledOk && Resolved(s, s.position))
  }

  lemma SoundStep(s: State, e: Event)
    requires Sound(s) && s.stack.Guarded?
    ensures Sound(Step(s, e)) && Step(s, e).stack == s.stack
  {
    StillResolved(s, Step(s, e));
  }

  lemma StillResolved(s: State, s': State)
    requires Sound(s) && s.done <= s'.done && s.handed <= s'.handed
    ensures forall offset :: 0 <= offset < s.position ==> Resolved(s', offset)
  {
    forall offset | 0 <= offset < s.position ensures Resolved(s', offset) {
      assert Resolved(s, offset);
    }
  }

  /** Behind retry and dead-letter queue no commit ever passes an unresolved message, across crashes and failed commits,
      for any MaxAttempts. */
  lemma {:induction false} GuardedLeavesNoGap(maxAttempts: int, es: seq<Event>)
    ensures var s := Run(INIT(Guarded(maxAttempts)), es); NoGap(s) && Sound(s) && s.stack == Guarded(maxAttempts)
  {
    if es != [] {
      GuardedLeavesNoGap(maxAttempts, es[..|es| - 1]);
      SoundStep(Run(INIT(Guarded(maxAttempts)), es[..|es| - 1]), es[|es| - 1]);
    }
  }

  /** One delivery after the other, each committed. */
  function Orderly(deliveries: seq<seq<Try>>): seq<Event> {
    if deliveries == [] then []
    else Orderly(deliveries[..|deliveries| - 1]) + [Handle(deliveries[|deliveries| - 1])] + [Finish(true)]
  }

  /** Undisturbed, the guarded consumer commits every message, and hands to the dead-letter publisher exactly those
      whose last allowed run of the handler failed. */
  lemma {:induction false} OrderlyRun(maxAttempts: int, deliveries: seq<seq<Try>>)
    ensures var s := Run(INIT(Guarded(maxAttempts)), Orderly(deliveries));
      && s.stack == Guarded(maxAttempts) && s.stage == Fetching
      && s.position == |deliveries| && s.committed == |deliveries|
      && forall i: nat ::
           && (i in s.done <==> i < |deliveries| && Retried(maxAttempts, deliveries[i]).0 == Ok)
           && (i in s.handed <==> i < |deliveries| && Retried(maxAttempts, deliveries[i]).0 != Ok)
  {
    if deliveries != [] {
      var most, last := deliveries[..|deliveries| - 1], deliveries[|deliveries| - 1];
      OrderlyRun(maxAttempts, most);
      RunOn(INIT(Guarded(maxAttempts)), Orderly(most), Handle(last), Finish(true));
    }
  }

  // The bare consumer.

  /** Event i of the run is a successful run of the handler for this offset. */
  predicate SucceedsAt(es: seq<Event>, i: nat, offset: nat) {
    && i < |es| && es[i].Handle? && FirstTry(es[i].tries)
    && Run(INIT(Bare), es[..i]).stage == Fetching && Run(INIT(Bare), es[..i]).position == offset
  }

  /** Event i of the run commits this offset. */
  predicate CommitsAt(es: seq<Event>, i: nat, offset: nat) {
    && i < |es| && es[i] == Finish(true)
    && Run(INIT(Bare), es[..i]).stage == HandledOk && Run(INIT(Bare), es[..i]).position == offset
  }

  ghost predicate EverSucceeds(es: seq<Event>, offset: nat) {
    exists i: nat :: SucceedsAt(es, i, offset)
  }

  ghost predicate CommitReaches(es: seq<Event>, offset: nat) {
    exists i: nat, p: nat :: CommitsAt(es, i, p) && offset <= p
  }

  /** A longer run succeeds and commits where the shorter one did, and where its last event does. */
  lemma OneMoreEvent(es: seq<Event>, offset: nat)
    requires es != []
    ensures var most, n := es[..|es| - 1], |es| - 1;
      && (EverSucceeds(es, offset) <==> EverSucceeds(most, offset) || SucceedsAt(es, n, offset))
      && (CommitReaches(es, offset) <==>
           CommitReaches(most, offset) || exists p: nat :: CommitsAt(es, n, p) && offset <= p)
  {
    var most := es[..|es| - 1];
    forall i: nat, p: nat | i < |most|
      ensures (SucceedsAt(most, i, p) <==> SucceedsAt(es, i, p)) && (CommitsAt(most, i, p) <==> CommitsAt(es, i, p))
    {
      assert most[..i] == es[..i];
    }
  }

  /** What the state of the bare consumer remembers of the run. */
  lemma {:induction false} BareRemembers(es: seq<Event>, offset: nat)
    ensures var s := Run(INIT(Bare), es);
      && s.stack == Bare && s.handed == {} && s.committed <= s.position
      && (s.stage == HandledOk ==> s.position in s.done)
      && (offset in s.done <==> EverSucceeds(es, offset))
      && (offset < s.committed <==> CommitReaches(es, offset))
  {
    if es != [] {
      BareRemembers(es[..|es| - 1], offset);
      OneMoreEvent(es, offset);
      var s := Run(INIT(Bare), es[..|es| - 1]);
      match es[|es| - 1]
      case Handle(tries) =>
        assert SucceedsAt(es, |es| - 1, offset) <==> s.stage == Fetching && FirstTry(tries) && s.position == offset;
      case Finish(ok) => assert CommitsAt(es, |es| - 1, s.position) <==> ok && s.stage == HandledOk;
      case Crash =>
    }
  }

  /** The run commits an offset above one that never succeeded. */
  ghost predicate CommitsPastFailure(es: seq<Event>) {
    exists offset: nat, i: nat, p: nat :: CommitsAt(es, i, p) && offset < p && !EverSucceeds(es, offset)
  }

  /** The bare consumer commits past a failed message as soon as a later one succeeds: in every run, with crashes and
      failed commits, it leaves a gap exactly when some offset never succeeded and a later one's commit went through. */
  lemma {:induction false} BareLeavesNoGapIff(es: seq<Event>)
    ensures NoGap(Run(INIT(Bare), es)) <==> !CommitsPastFailure(es)
  {
    var s := Run(INIT(Bare), es);
    if !NoGap(s) {
      var offset: nat :| offset < s.committed && !Resolved(s, offset);
      BareRemembers(es, offset);
      var i: nat, p: nat :| CommitsAt(es, i, p) && offset <= p;
      CommittedSucceeds(es, i, p);
    }
    if CommitsPastFailure(es) {
      var offset: nat, i: nat, p: nat :| CommitsAt(es, i, p) && offset < p && !EverSucceeds(es, offset);
      BareRemembers(es, offset);
      assert !Resolved(s, offset);
    }
  }

  /** A committed offset has succeeded itself. */
  lemma CommittedSucceeds(es: seq<Event>, i: nat, offset: nat)
    requires CommitsAt(es, i, offset)
    ensures EverSucceeds(es, offset)
  {
    BareRemembers(es[..i], offset);
    var k: nat :| SucceedsAt(es[..i], k, offset);
    assert es[..i][..k] == es[..k];
    assert SucceedsAt(es, k, offset);
  }

  // The code.

  lemma {:induction false} RunOn(s: State, es: seq<Event>, e: Event, f: Event)
    ensures Run(s, es + [e] + [f]) == Step(Step(Run(s, es), e), f)
  {
    assert (es + [e])[..|es|] == es;
    assert (es + [e] + [f])[..|es| + 1] == es + [e];
  }

  class Handler {
    var tries: seq<Try>

    constructor (tries: seq<Try>)
      ensures this.tries == tries
    {
      this.tries := tries;
    }

    method Run() returns (t: Try)
      modifies this
      ensures t == (if old(tries) == [] then Try(false, false) else old(tries)[0])
      ensures tries == if old(tries) == [] then [] else old(tries)[1..]
    {
      if tries == [] { return Try(false, false); }
      t := tries[0];
      tries := tries[1..];
    }

    /** WithRetry: runs the handler until it succeeds, at most `maxAttempts` times, unless the context ends. */
    method WithRetry(maxAttempts: int) returns (result: Result, runs: nat)
      modifies this
      ensures (result, runs) == Retried(maxAttempts, old(tries))
    {
      runs := 0;
      var attempt := 0;
      while attempt < maxAttempts
        invariant 0 <= attempt == runs && (attempt <= maxAttempts || attempt == 0)
        invariant attempt == maxAttempts > 0 ==> Retried(maxAttempts, old(tries)) == (Exhausted, runs)
        invariant 0 <= attempt < maxAttempts ==>
          && Retried(maxAttempts, old(tries)).0 == Retried(maxAttempts - attempt, tries).0
          && Retried(maxAttempts, old(tries)).1 == Retried(maxAttempts - attempt, tries).1 + attempt
        decreases maxAttempts - attempt
      {
        var t := Run();
        runs := runs + 1;
        if t.ok { return Ok, runs; }
        if attempt < maxAttempts - 1 && t.cancelled { return Cancelled, runs; }
        attempt := attempt + 1;
      }
      return Exhausted, runs;
    }
  }

  class Reader {
    var state: State
    const handler: Handler

    constructor (stack: Stack, handler: Handler)
      ensures state == INIT(stack) && this.handler == handler
    {
      state := INIT(stack);
      this.handler := handler;
    }

    /** WithDLQ around WithRetry, or the plain handler; true: no error reaches the consumer loop. */
    method HandleMessage() returns (ok: bool)
      requires state.stage == Fetching
      modifies this, handler
      ensures state == DoHandle(old(state), old(handler.tries))
      ensures ok <==> state.stage == HandledOk
    {
      match state.stack
      case Bare =>
        var t := handler.Run();
        ok := t.ok;
        state := if ok then state.(stage := HandledOk, done := state.done + {state.position})
                 else state.(stage := HandledErr);
      case Guarded(n) =>
        var result, runs := handler.WithRetry(n);
        if result == Ok {
          state := state.(stage := HandledOk, done := state.done + {state.position});
        } else {
          state := state.(stage := HandledOk, handed := state.handed + {state.position});
        }
        ok := true;
    }

    /** The fetch, handle, commit loop, for as many messages as are fetched before the context ends. */
    method Start(fetched: nat, commits: seq<bool>) returns (ghost es: seq<Event>)
      requires state.stage == Fetching && (state.stack.Guarded? ==> Sound(state))
      modifies this, handler
      ensures state == Run(old(state), es) && state.stage == Fetching && state.position == old(state.position) + fetched
      ensures old(state).stack.Guarded? ==> NoGap(state) && Sound(state)
      ensures old(state).stack.Guarded? ==> forall o :: old(state.position) <= o < state.position ==> Resolved(state, o)
    {
      es := [];
      for i := 0 to fetched
        invariant state.stage == Fetching && state.stack == old(state.stack) && (state.stack.Guarded? ==> Sound(state))
        invariant state.position == old(state.position) + i && state == Run(old(state), es)
      {
        var commitOk := i < |commits| && commits[i];
        ghost var handle, finish := Handle(handler.tries), Finish(commitOk);
        RunOn(old(state), es, handle, finish);
        if state.stack.Guarded? {
          SoundStep(state, handle);
          SoundStep(Step(state, handle), finish);
        }
        es := es + [handle] + [finish];
        var ok := HandleMessage();
        if !ok {
          state := state.(stage := Fetching, position := state.position + 1);
        } else {
          state := state.(stage := Fetching, position := state.position + 1,
                          committed := if commitOk then state.position + 1 else state.committed);
        }
      }
    }

    /** A new consumer of the group starts from the committed offset. */
    method Restart()
      modifies this`state
      ensures state == Step(old(state), Crash)
    {
      state := state.(stage := Fetching, position := state.committed);
    }
  }
}
