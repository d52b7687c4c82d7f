/** internal/authentication/cleanup.go: expired temporary state, table by table. */
module Cleanups {
  import opened Base
  import opened Store
  import opened Answers

  predicate Collectable(p: Process, now: Time, reuseTTL: nat) {
    && p.expires < now
    && (p.completed.Some? ==> p.completed.value < now - reuseTTL)
    && (p.grant.Some? ==> p.grant.value.expires < now)
  }

  function Uncollected(cfg: Config, procs: map<Id, Process>, now: Time): map<Id, Process> {
    map p | p in procs && !Collectable(procs[p], now, cfg.reuseTTL) :: procs[p]
  }

  function Expired(sessions: map<Id, Session>, now: Time): set<Id> {
    set s | s in sessions && sessions[s].expires < now
  }

  /** The DELETE statements of Cleanup. */
  datatype Statement = PurgeOAuth | PurgeChanges | PurgeResets | PurgeActivations | PurgePasskeyRequests | PurgeProcesses | PurgeSessions

  const STATEMENTS: seq<Statement> :=
    [PurgeOAuth, PurgeChanges, PurgeResets, PurgeActivations, PurgePasskeyRequests, PurgeProcesses, PurgeSessions]

  function Execute(cfg: Config, db: DB, now: Time, q: Statement): DB {
    match q
    case PurgeOAuth => db.(oauth := map o | o in db.oauth && db.oauth[o].expires >= now :: db.oauth[o])
    case PurgeChanges => db.(changes := map c | c in db.changes && db.changes[c].expires >= now :: db.changes[c])
    case PurgeResets => db.(resets := map r | r in db.resets && db.resets[r].expires >= now :: db.resets[r])
    case PurgeActivations => db.(activations := map t | t in db.activations && db.activations[t].expires >= now :: db.activations[t])
    case PurgePasskeyRequests =>
      db.(passkeyRequests := map r | r in db.passkeyRequests && db.passkeyRequests[r].expires >= now :: db.passkeyRequests[r])
    case PurgeProcesses => DropProcesses(db, Uncollected(cfg, db.procs, now))
    case PurgeSessions => DropSessions(db, Expired(db.sessions, now))
  }

  function ExecuteAll(cfg: Config, db: DB, now: Time, qs: seq<Statement>): DB {
    if qs == [] then db else Execute(cfg, ExecuteAll(cfg, db, now, qs[..|qs| - 1]), now, qs[|qs| - 1])
  }

  function CleanupTx(cfg: Config, db: DB, now: Time): Outcome {
    Ok(Commit(ExecuteAll(cfg, db, now, STATEMENTS), Done))
  }
}
