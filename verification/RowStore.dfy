/** Row versions, row locks and uncommitted row images of one table, as statements of
    concurrent database transactions see them. */
module RowStore {
  import opened Base

  /** `version` counts committed writes of a row, `holder` is the database transaction holding its
      lock, `staged` the image that transaction has written and not committed. */
  datatype Locks<R> = Locks(version: map<Id, nat>, holder: map<Id, Id>, staged: map<Id, R>)

  function Version<R>(k: Locks<R>, id: Id): nat {
    if id in k.version then k.version[id] else 0
  }

  /** A statement of `sid` that needs the row lock can proceed. */
  predicate Free<R>(k: Locks<R>, sid: Id, id: Id) {
    id in k.holder ==> k.holder[id] == sid
  }

  /** SELECT ... FOR UPDATE. */
  function Hold<R>(k: Locks<R>, sid: Id, id: Id): Locks<R> {
    k.(holder := k.holder[id := sid])
  }

  /** UPDATE inside a database transaction. */
  function Write<R>(k: Locks<R>, sid: Id, id: Id, row: R): Locks<R> {
    k.(holder := k.holder[id := sid], staged := k.staged[id := row])
  }

  /** End of a database transaction that held the lock: written rows get a new version. */
  function Unlock<R>(k: Locks<R>, id: Id): Locks<R> {
    k.(holder := k.holder - {id}, staged := k.staged - {id})
  }

  function Bump<R>(k: Locks<R>, id: Id): Locks<R> {
    k.(version := k.version[id := Version(k, id) + 1])
  }
}
