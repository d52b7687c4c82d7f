/** internal/authentication/totp.go: enrolment, removal and backup codes. */
module Totps {
  import opened Base
  import opened Secrets
  import opened Store
  import opened Answers
  import opened Processes

  const BACKUP_CODES: nat := 10
  const ACTIVATION_TTL: Time := 5 * MINUTE

  function StartTotpTx(db: DB, now: Time, who: Principal, grant: Id): Outcome {
    var spent :- ConsumeGrant(db, now, grant, Purpose.TotpEnrollment, who);
    BeginEnrolment(spent.db, now, spent.account, who.session)
  }

  /** A new activation replaces the one before. */
  function BeginEnrolment(db: DB, now: Time, account: Id, session: Id): Outcome {
    if account in db.totp then Err(Conflict)
    else
      var row := Activation(session, db.supply, now + ACTIVATION_TTL);
      Ok(Commit(db.(activations := db.activations[account := row], supply := db.supply + 1), Secret(db.supply, row.expires)))
  }

  /** The transaction of ConfirmTotp, after the attempt limiter let it through. */
  function ConfirmTotpTx(cfg: Config, db: DB, now: Time, who: Principal, digits: string): Outcome {
    if !FullPrincipal(db, now, who) then Err(Forbidden) else
    var a := who.account;
    :- Need(a in db.activations && db.activations[a].session == who.session && db.activations[a].expires > now, Invalid);
    var key := db.activations[a].key;
    var used := TotpStep(cfg.mac, key, digits, now, -1);
    :- Need(used.Some?, Credentials);
    :- Need(a !in db.totp, Conflict);
    var d := db.(totp := db.totp[a := TotpFactor(key, used.value)], activations := db.activations - {a});
    var d' := Invalidate(d, a, now);
    Ok(ReplaceBackupCodes(DropSessions(d', SessionsOf(d', a) - {who.session}), a))
  }

  function DeleteTotpTx(db: DB, now: Time, who: Principal, grant: Id): Outcome {
    var spent :- ConsumeGrant(db, now, grant, Purpose.TotpRemoval, who);
    Ok(RemoveTotp(spent.db, now, spent.account))
  }

  function RemoveTotp(db: DB, now: Time, account: Id): Commit {
    Commit(Invalidate(db.(totp := db.totp - {account}), account, now), Done)
  }

  /** The hashes of the n codes drawn from the supply on. */
  function BackupHashes(account: Id, first: Id, n: nat): set<BackupKey> {
    set i: Id | first <= i < first + n :: BackupKey(account, Digest(BackupTag, account, i))
  }

  function ReplaceBackupCodes(db: DB, account: Id): Commit {
    var others := set b | b in db.backups && b.account != account;
    Commit(db.(backups := others + BackupHashes(account, db.supply, BACKUP_CODES), supply := db.supply + BACKUP_CODES),
           Codes(seq(BACKUP_CODES, i requires 0 <= i => db.supply + i)))
  }

  function RotateBackupCodesTx(db: DB, now: Time, who: Principal, grant: Id): Outcome {
    var spent :- ConsumeGrant(db, now, grant, Purpose.BackupCodesRotation, who);
    Ok(RotateCodes(spent.db, now, spent.account))
  }

  function RotateCodes(db: DB, now: Time, account: Id): Commit {
    var replaced := ReplaceBackupCodes(db, account);
    replaced.(db := Invalidate(replaced.db, account, now))
  }
}
