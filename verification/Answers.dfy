/** What a transaction gives back. */
module Answers {
  import opened Base
  import opened Secrets
  import opened Store

  /** The public state of a process; grant is the confirmation token, shown once. */
  datatype View = View(id: Id, purpose: Purpose, status: Status, next: seq<Kind>, grant: Option<Id>)

  datatype Answer =
    | Rejected(error: Error)
    | Done
    | Flag(value: bool)
    | Started(view: View, flow: Id)
    | Challenged(step: Id, kind: Kind, expires: Time, nonce: Option<Id>, state: Option<Id>)
    | Attempted(step: Id, view: View)
    | Exchanging(nonceHash: Digest, redirect: string, verifier: Option<Id>)
    | Tokens(account: Id, session: Id, refresh: Id, expires: Time, pending: Option<Deletion>)
    | DeletionSet(deletion: Deletion)
    | Secret(key: Id, expires: Time)
    | Codes(codes: seq<Id>)
    | Created(id: Id)

  /** A committed transaction. */
  datatype Commit = Commit(db: DB, answer: Answer)

  type Outcome = Result<Commit>

  /** A transaction that returns an error without committing is rolled back. */
  function Settle(db: DB, r: Outcome): Commit {
    match r
    case Ok(c) => c
    case Err(e) => Commit(db, Rejected(e))
  }
}
