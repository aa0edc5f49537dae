/** The webhook inbox: a table used as a queue by any number of workers, with bounded retries. */
module Inbox {
  import opened Base

  /** Webhook types the worker knows, and any other. */
  datatype Kind = OrderUpdate | DisputeUpdate | OtherKind

  /** What a webhook tells; `refundId` is empty unless the event is about a refund. */
  datatype Webhook =
    | Order(eventId: string)
    | Dispute(eventId: string)
    | Payment(transactionId: string, event: string, refundId: string)

  datatype RowStatus = Pending | Processing | Processed | Dead

  /** A row of the inbox; `payload` is None when it cannot be parsed. The last four fields are not columns: they record
      how often the row was claimed, how many HTTP requests were made for it, whether one was answered with success or
      conflict, and whether one was answered with an error that no retry can mend. */
  datatype Row = Row(
    key: string,
    kind: Kind,
    payload: Option<Webhook>,
    status: RowStatus,
    retryCount: nat,
    receivedAt: int,
    claims: nat,
    attempts: nat,
    acked: bool,
    refused: bool)

  datatype Config = Config(batchSize: int, maxRetries: int, retryAttempts: int)

  // Sending one message.

  datatype HttpReply = Success | BadRequest | NotFound | Conflict | InvalidStatus | Unavailable | Unexpected

  /** One request, and whether the context ends during the wait that may follow it. */
  datatype Attempt = Attempt(reply: HttpReply, cancelled: bool)

  datatype SendResult = Sent | Refused(reply: HttpReply) | Cancelled

  /** What DoWithRetry returns, and how many requests it made: it goes on only after "service unavailable". */
  function Retry(n: int, tries: seq<Attempt>): (res: (SendResult, nat))
    decreases n
  {
    if n <= 0 then (Sent, 0)
    else
      var a := if tries == [] then Attempt(Unavailable, false) else tries[0];
      if a.reply == Success then (Sent, 1)
      else if a.reply != Unavailable || n == 1 then (Refused(a.reply), 1)
      else if a.cancelled then (Cancelled, 1)
      else
        var rest := Retry(n - 1, if tries == [] then [] else tries[1..]);
        (rest.0, rest.1 + 1)
  }

  datatype Outcome = Done | Failure(permanent: bool)

  predicate IsPermanent(r: SendResult) {
    r.Refused? && (r.reply == BadRequest || r.reply == NotFound || r.reply == InvalidStatus)
  }

  /** processMessage: a conflict means the message was already applied. */
  function OutcomeOf(r: SendResult): Outcome {
    if r == Sent || r == Refused(Conflict) then Done else Failure(IsPermanent(r))
  }

  predicate Sendable(row: Row) {
    row.kind != OtherKind && row.payload.Some?
  }

  // The table.

  predicate KeyStored(rows: map<Id, Row>, key: string) {
    exists id :: id in rows && rows[id].key == key
  }

  function NewRow(key: string, kind: Kind, payload: Option<Webhook>, at: int): Row {
    Row(key, kind, payload, Pending, 0, at, 0, 0, false, false)
  }

  function Claimed(row: Row): Row {
    row.(status := Processing, claims := row.claims + 1)
  }

  function MarkedProcessed(row: Row): Row {
    row.(status := Processed)
  }

  function MarkedFailed(row: Row, maxRetries: int): Row {
    row.(retryCount := row.retryCount + 1, status := if row.retryCount + 1 >= maxRetries then Dead else Pending)
  }

  /** What the worker writes after processing a message. */
  function Settled(cfg: Config, row: Row, outcome: Outcome): Row {
    match outcome
    case Done => MarkedProcessed(row)
    case Failure(permanent) => MarkedFailed(row, if permanent then 0 else cfg.maxRetries)
  }

  /** The requests made for a message, on its record. */
  function Tried(cfg: Config, row: Row, tries: seq<Attempt>): Row {
    if !Sendable(row) then row
    else
      var r := Retry(cfg.retryAttempts, tries);
      var done := r.1 > 0 && (r.0 == Sent || r.0 == Refused(Conflict));
      var hopeless := r.0 == Refused(BadRequest) || r.0 == Refused(NotFound) || r.0 == Refused(InvalidStatus);
      row.(attempts := row.attempts + r.1, acked := row.acked || done, refused := row.refused || hopeless)
  }

  function Verdict(cfg: Config, row: Row, tries: seq<Attempt>): Outcome {
    if !Sendable(row) then Failure(false) else OutcomeOf(Retry(cfg.retryAttempts, tries).0)
  }

  // Workers.

  /** `Locking`: the inner SELECT ... FOR UPDATE SKIP LOCKED has chosen rows, the UPDATE has not committed;
      `Working`: claimed messages still to process; `Handled`: one message processed, its row not yet written. */
  datatype Worker =
    Idle | Locking(ids: set<Id>) | Working(todo: seq<Id>) | Handled(id: Id, outcome: Outcome, todo: seq<Id>)

  datatype Inbox = Inbox(cfg: Config, rows: map<Id, Row>, workers: map<Id, Worker>)

  function INIT(cfg: Config): Inbox {
    Inbox(cfg, map[], map[])
  }

  function WorkerOf(s: Inbox, w: Id): Worker {
    if w in s.workers then s.workers[w] else Idle
  }

  predicate RowLocked(s: Inbox, id: Id) {
    exists w :: w in s.workers && s.workers[w].Locking? && id in s.workers[w].ids
  }

  /** SKIP LOCKED passes over rows another worker is claiming. */
  predicate Available(s: Inbox, id: Id) {
    id in s.rows && s.rows[id].status == Pending && !RowLocked(s, id)
  }

  /** What the locking SELECT may lock: available rows, at most a batch of them. Rows that became available after its
      snapshot are not among them, so a batch may be smaller than the table would allow. */
  predicate Lockable(s: Inbox, ids: set<Id>) {
    (forall id :: id in ids ==> Available(s, id)) && |ids| <= Limit(s.cfg)
  }

  /** ORDER BY received_at LIMIT n on a current snapshot: as many available rows as there are, up to n, and none
      left out is older. */
  predicate Chosen(s: Inbox, ids: set<Id>) {
    && Lockable(s, ids)
    && (|ids| < Limit(s.cfg) ==> forall id :: id in s.rows && Available(s, id) ==> id in ids)
    && (forall id, other :: id in ids && other in s.rows && Available(s, other) && other !in ids ==>
          s.rows[id].receivedAt <= s.rows[other].receivedAt)
  }

  function Limit(cfg: Config): nat {
    if cfg.batchSize < 0 then 0 else cfg.batchSize
  }

  /** `order` lists exactly these ids, each once: RETURNING promises no order. */
  predicate Lists(order: seq<Id>, ids: set<Id>) {
    && (forall id :: id in order ==> id in ids) && (forall id :: id in ids ==> id in order)
    && NoDup(order)
  }

  predicate NoDup(ids: seq<Id>) {
    forall i, j :: 0 <= i < j < |ids| ==> ids[i] != ids[j]
  }

  datatype Event =
    | Store(id: Id, key: string, kind: Kind, payload: Option<Webhook>, at: int)
    | Lock(w: Id, ids: set<Id>)
    | Claim(w: Id, order: seq<Id>)
    | Process(w: Id, tries: seq<Attempt>)
    | Mark(w: Id, ok: bool)             // the row write after a message, which may fail
    | Crash(w: Id)

  function SetWorker(s: Inbox, w: Id, state: Worker): Inbox {
    s.(workers := s.workers[w := state])
  }

  function DoStore(s: Inbox, id: Id, key: string, kind: Kind, payload: Option<Webhook>, at: int): Inbox {
    if id in s.rows || KeyStored(s.rows, key) then s
    else s.(rows := s.rows[id := NewRow(key, kind, payload, at)])
  }

  function DoLock(s: Inbox, w: Id, ids: set<Id>): Inbox {
    if WorkerOf(s, w) != Idle || !Lockable(s, ids) then s else SetWorker(s, w, Locking(ids))
  }

  function ClaimAll(rows: map<Id, Row>, ids: set<Id>): map<Id, Row> {
    map id | id in rows :: if id in ids then Claimed(rows[id]) else rows[id]
  }

  function DoClaim(s: Inbox, w: Id, order: seq<Id>): Inbox {
    if !WorkerOf(s, w).Locking? || !Lists(order, WorkerOf(s, w).ids) then s
    else SetWorker(s, w, Working(order)).(rows := ClaimAll(s.rows, WorkerOf(s, w).ids))
  }

  function DoProcess(s: Inbox, w: Id, tries: seq<Attempt>): Inbox {
    match WorkerOf(s, w)
    case Working(todo) =>
      if todo == [] || todo[0] !in s.rows then SetWorker(s, w, Idle)
      else
        var row := s.rows[todo[0]];
        SetWorker(s, w, Handled(todo[0], Verdict(s.cfg, row, tries), todo[1..]))
          .(rows := s.rows[todo[0] := Tried(s.cfg, row, tries)])
    case _ => s
  }

  function DoMark(s: Inbox, w: Id, ok: bool): Inbox {
    match WorkerOf(s, w)
    case Handled(id, outcome, todo) =>
      if ok && id in s.rows
        then SetWorker(s, w, Working(todo)).(rows := s.rows[id := Settled(s.cfg, s.rows[id], outcome)])
      else SetWorker(s, w, Working(todo))
    case _ => s
  }

  function DoCrash(s: Inbox, w: Id): Inbox {
    SetWorker(s, w, Idle)
  }

  function Step(s: Inbox, e: Event): Inbox {
    match e
    case Store(id, key, kind, payload, at) => DoStore(s, id, key, kind, payload, at)
    case Lock(w, ids) => DoLock(s, w, ids)
    case Claim(w, order) => DoClaim(s, w, order)
    case Process(w, tries) => DoProcess(s, w, tries)
    case Mark(w, ok) => DoMark(s, w, ok)
    case Crash(w) => DoCrash(s, w)
  }

  function Run(s: Inbox, es: seq<Event>): Inbox {
    if es == [] then s else Step(Run(s, es[..|es| - 1]), es[|es| - 1])
  }
}
