/** internal/authentication/sessions.go: sessions and their refresh tokens. */
module Sessions {
  import opened Base
  import opened Secrets
  import opened Store
  import opened Answers
  import opened Processes

  /** issue: refused to a blocked account and to one whose deletion is due. */
  function Issue(db: DB, now: Time, account: Id, session: Id, refresh: Id, expires: Time): Result<Answer> {
    if account !in db.accounts then Err(Internal) else
    :- Need(!db.accounts[account].blocked, Forbidden);
    if account !in db.deletions then Ok(Tokens(account, session, refresh, expires, None))
    else
      :- Need(db.deletions[account].at > now, Forbidden);
      Ok(Tokens(account, session, refresh, expires, Some(db.deletions[account])))
  }

  function CreateSessionTx(db: DB, now: Time, grant: Id, ttl: int): Outcome {
    var found := ProcByGrant(db.procs, db.supply, Digest(GrantTag, 0, grant));
    :- Need(found.Some?, Forbidden);
    var purpose := db.procs[found.value].purpose;
    :- Need(!Sensitive(purpose), Forbidden);
    var spent :- ConsumeGrant(db, now, grant, purpose, Anonymous);
    OpenSession(spent.db, now, spent.account, ttl)
  }

  function OpenSession(db: DB, now: Time, account: Id, ttl: int): Outcome
    requires account in db.accounts
  {
    var refresh, id := db.supply, db.supply + 1;
    var row := Session(account, Digest(RefreshTag, 0, refresh), now + ttl);
    var d := db.(sessions := db.sessions[id := row], supply := db.supply + 2);
    var answer :- Issue(d, now, account, id, refresh, row.expires);
    Ok(Commit(Notify(d, account, NewLogin), answer))
  }

  predicate AcceptsRefresh(db: DB, now: Time, id: Id, refresh: Id) {
    id in db.sessions && db.sessions[id].refresh == Digest(RefreshTag, 0, refresh) && db.sessions[id].expires > now
  }

  function RefreshTx(db: DB, now: Time, id: Id, refresh: Id, ttl: int): Outcome {
    if !AcceptsRefresh(db, now, id, refresh) then Err(Credentials) else
    var next := db.supply;
    var row := db.sessions[id].(refresh := Digest(RefreshTag, 0, next), expires := now + ttl);
    var d := db.(sessions := db.sessions[id := row], supply := db.supply + 1);
    var answer :- Issue(d, now, row.account, id, next, row.expires);
    Ok(Commit(d, answer))
  }

  function RevokeSessionsTx(db: DB, now: Time, who: Principal, only: Option<Id>): Outcome {
    if !LiveSession(db, now, who) then Err(NoSession) else
    var own := SessionsOf(db, who.account);
    Ok(Commit(DropSessions(db, if only.Some? then own * {only.value} else own), Done))
  }

  function LogoutRefreshTx(db: DB, id: Id, refresh: Id): Outcome {
    if id in db.sessions && db.sessions[id].refresh == Digest(RefreshTag, 0, refresh)
    then Ok(Commit(DropSessions(db, {id}), Done))
    else Ok(Commit(db, Done))
  }
}
