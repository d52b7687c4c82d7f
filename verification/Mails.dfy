/** internal/authentication/mail.go: password reset and the two-stage email change. */
module Mails {
  import opened Base
  import opened Secrets
  import opened Store
  import opened Answers
  import opened Processes
  import opened Challenges
  import opened Accounts

  const LINK_TTL: Time := 30 * MINUTE

  /** baseOk says whether the configured link base is an https URL with a host. */
  function StartPasswordResetTx(cfg: Config, db: DB, now: Time, raw: string, baseOk: bool): Outcome {
    if !baseOk then Err(Unavailable) else
    var email := cfg.normalize(raw);
    var found := AccountByEmail(db.accounts, db.supply, email);
    if found.None? || db.accounts[found.value].blocked then Ok(Commit(db, Done))
    else
      var row := ResetRequest(Digest(ResetTag, 0, db.supply), now + LINK_TTL);
      var d := db.(resets := db.resets[found.value := row], supply := db.supply + 1);
      Ok(Commit(Enqueue(d, Mail(email, PasswordReset, Some(db.supply))), Done))
  }

  function ConfirmPasswordResetTx(db: DB, now: Time, token: Id, password: Store.Password): Outcome {
    if !AcceptablePassword(password) then Err(Invalid) else
    var found := ResetByToken(db.resets, db.supply, Digest(ResetTag, 0, token));
    :- Need(found.Some? && db.resets[found.value].expires > now, Invalid);
    :- Need(found.value in db.accounts, Internal);
    ReplacePassword(db.(resets := db.resets - {found.value}), now, found.value, password, {})
  }

  function ChangeEmailTx(cfg: Config, db: DB, now: Time, who: Principal, grant: Id, raw: string, baseOk: bool): Outcome {
    var email := cfg.normalize(raw);
    :- Need(cfg.parsesAsAddress(email), Invalid);
    var spent :- ConsumeGrant(db, now, grant, EmailChanging, who);
    AskPreviousAddress(spent.db, now, spent.account, email, baseOk)
  }

  /** The row is inserted plainly: one that is there, even expired, is a conflict. */
  function AskPreviousAddress(db: DB, now: Time, account: Id, email: string, baseOk: bool): Outcome
    requires account in db.accounts
  {
    var previous := db.accounts[account].email;
    :- Need(previous != email, Conflict);
    :- Need(baseOk, Unavailable);
    :- Need(account !in db.changes, Conflict);
    var row := EmailChangeRequest(previous, email, AwaitingPrevious, Digest(EmailChangeTag, 0, db.supply), now + LINK_TTL);
    Ok(Commit(Enqueue(db.(changes := db.changes[account := row], supply := db.supply + 1),
                      Mail(previous, EmailChangePrevious, Some(db.supply))), Done))
  }

  /** The previous address has confirmed: a second token goes to the new one. */
  function AskNewAddress(db: DB, account: Id, now: Time): DB
    requires account in db.changes
  {
    var row := db.changes[account].(stage := AwaitingNew, token := Digest(EmailChangeTag, 0, db.supply), expires := now + LINK_TTL);
    Enqueue(db.(changes := db.changes[account := row], supply := db.supply + 1), Mail(row.email, EmailChangeNew, Some(db.supply)))
  }

  function MoveAddress(db: DB, account: Id): DB
    requires account in db.changes && account in db.accounts
  {
    SetAccount(db, account, db.accounts[account].(email := db.changes[account].email)).(changes := db.changes - {account})
  }

  /** The flag is true once the address has changed, false while the new address must still confirm. */
  function ConfirmEmailTx(db: DB, now: Time, token: Id, baseOk: bool): Outcome {
    var found := ChangeByToken(db.changes, db.supply, Digest(EmailChangeTag, 0, token));
    :- Need(found.Some? && db.changes[found.value].expires > now, Invalid);
    var a := found.value;
    var row := db.changes[a];
    match row.stage
    case AwaitingPrevious =>
      :- Need(baseOk, Unavailable);
      Ok(Commit(AskNewAddress(db, a, now), Flag(false)))
    case AwaitingNew =>
      :- Need(a in db.accounts && db.accounts[a].email == row.previous && !EmailTaken(db, row.email), Conflict);
      Ok(Commit(Invalidate(MoveAddress(db, a), a, now), Flag(true)))
  }
}
