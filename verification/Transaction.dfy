/** internal/authentication/transaction.go and the helpers that work on an open transaction, statement by statement. */
module Transactions {
  import opened Base
  import opened Secrets
  import opened Store
  import opened Answers
  import opened Processes
  import opened Challenges
  import opened Totps
  import opened Cleanups

  // The checks of ConsumeGrant, in the order of the source.
  lemma GrantDecides(db: DB, now: Time, token: Id, purpose: Purpose, who: Principal)
    ensures var r, found := Processes.ConsumeGrant(db, now, token, purpose, who), ProcByGrant(db.procs, db.supply, Digest(GrantTag, 0, token));
      if found.None? || !Spendable(db.procs[found.value], purpose, now) then r == Err(Forbidden)
      else
        var p := db.procs[found.value];
        if Sensitive(purpose) && !(who.Bearer? && p.account == Some(who.account) && p.session == Some(who.session)
                                   && PurposePrincipal(db, now, who, purpose)) then r == Err(Forbidden)
        else if p.account.None? || p.account.value !in db.accounts then r == Err(Internal)
        else if db.accounts[p.account.value].blocked then r == Err(Forbidden)
        else r == Ok(Spent(db.(procs := db.procs[found.value := p.(grant := None)]), found.value, p.account.value))
  {
    hide PurposePrincipal, ProcByGrant, HoldsGrant;
  }

  /** An open transaction: its own copy of the database, which the engine commits or forgets. */
  class Transaction {
    var db: DB

    constructor (start: DB)
      ensures db == start
    {
      db := start;
    }

    /** complete: the grant token it returns is the number just drawn. */
    method Complete(cfg: Config, id: Id, account: Id, now: Time) returns (token: Id)
      requires id in db.procs
      modifies this
      ensures db == Finish(cfg, old(db), id, account, now) && token == old(db).supply
    {
      token := db.supply;
      var grant := Grant(Digest(GrantTag, 0, token), now + cfg.grantTTL);
      var row := db.procs[id].(status := Completed, account := Some(account), completed := Some(now), grant := Some(grant));
      db := db.(procs := db.procs[id := row], supply := token + 1);
    }

    /** ConsumeGrant: the account whose grant was spent. */
    method ConsumeGrant(now: Time, token: Id, purpose: Purpose, who: Principal) returns (r: Result<Id>)
      modifies this
      ensures var spent := Processes.ConsumeGrant(old(db), now, token, purpose, who);
        if spent.Ok? then r == Ok(spent.value.account) && db == spent.value.db else r == Err(spent.error) && db == old(db)
    {
      hide Processes.ConsumeGrant, PurposePrincipal, ProcByGrant, HoldsGrant;
      GrantDecides(db, now, token, purpose, who);
      var found := ProcByGrant(db.procs, db.supply, Digest(GrantTag, 0, token));
      if found.None? {
        return Err(Forbidden);
      }
      var p := db.procs[found.value];
      if p.purpose != purpose || p.status != Completed || p.invalid.Some? || p.grant.None? || p.grant.value.expires <= now {
        return Err(Forbidden);
      }
      if Sensitive(purpose) {
        if !who.Bearer? || p.account != Some(who.account) || p.session != Some(who.session) {
          return Err(Forbidden);
        }
        if !PurposePrincipal(db, now, who, purpose) {
          return Err(Forbidden);
        }
      }
      if p.account.None? || p.account.value !in db.accounts {
        return Err(Internal);
      }
      if db.accounts[p.account.value].blocked {
        return Err(Forbidden);
      }
      db := db.(procs := db.procs[found.value := p.(grant := None)]);
      return Ok(p.account.value);
    }

    method Invalidate(account: Id, now: Time)
      modifies this
      ensures db == Processes.Invalidate(old(db), account, now)
    {
      db := db.(procs := map p | p in db.procs :: InvalidateRow(db.procs[p], account, now));
    }

    method NotifyAccount(account: Id, template: Template)
      requires account in db.accounts
      modifies this
      ensures db == Notify(old(db), account, template)
    {
      db := db.(outbox := db.outbox + [Mail(db.accounts[account].email, template, None)]);
    }

    method EndSessions(gone: set<Id>)
      modifies this
      ensures db == DropSessions(old(db), gone)
    {
      db := DropSessions(db, gone);
    }

    // ---------- proofs ----------

    method VerifyPassword(cfg: Config, id: Id, p: Process, login: string, password: Store.Password) returns (r: Result<Option<Id>>)
      requires id in db.procs
      modifies this
      ensures Concluded(Challenges.VerifyPassword(cfg, old(db), id, p, login, password), r, old(db), db)
    {
      hide PasswordAccount, PasswordFits;
      if Sensitive(p.purpose) != (login == "") {
        return Err(Invalid);
      }
      var found := PasswordAccount(cfg, db, p, login);
      if found.None? || !PasswordFits(cfg, db.accounts[found.value], password) {
        return Err(Credentials);
      }
      db := db.(procs := db.procs[id := db.procs[id].(account := found)]);
      return Ok(found);
    }

    method VerifyPasskey(cfg: Config, id: Id, p: Process, assertion: Assertion) returns (r: Result<Option<Id>>)
      requires id in db.procs
      modifies this
      ensures Concluded(Challenges.VerifyPasskey(cfg, old(db), id, p, assertion), r, old(db), db)
    {
      hide HasPasskey;
      if !cfg.passkeys {
        return Err(Unavailable);
      }
      if !assertion.Assertion? || (Sensitive(p.purpose) && p.account != Some(assertion.account)) || assertion.account !in db.accounts {
        return Err(Credentials);
      }
      if db.accounts[assertion.account].blocked {
        return Err(Forbidden);
      }
      if !assertion.accepted || !HasPasskey(db.passkeys, assertion.account, assertion.credential) {
        return Err(Credentials);
      }
      db := db.(procs := db.procs[id := db.procs[id].(account := Some(assertion.account))]);
      return Ok(Some(assertion.account));
    }

    method VerifyTotp(cfg: Config, now: Time, id: Id, p: Process, digits: string) returns (r: Result<Option<Id>>)
      requires id in db.procs
      modifies this
      ensures Concluded(Challenges.VerifyTotp(cfg, old(db), now, id, p, digits), r, old(db), db)
    {
      hide TotpStep;
      if p.account.None? {
        return Err(Forbidden);
      }
      if p.account.value !in db.totp {
        return Err(Credentials);
      }
      var factor := db.totp[p.account.value];
      var used := FindTotpStep(cfg.mac, factor.key, digits, now, factor.last);
      if used.None? {
        return Err(Credentials);
      }
      db := db.(totp := db.totp[p.account.value := factor.(last := used.value)]);
      return Ok(None);
    }

    method VerifyBackupCode(id: Id, p: Process, code: Id) returns (r: Result<Option<Id>>)
      requires id in db.procs
      modifies this
      ensures Concluded(VerifyBackup(old(db), id, p, code), r, old(db), db)
    {
      if p.account.None? {
        return Err(Forbidden);
      }
      var key := BackupKey(p.account.value, Digest(BackupTag, p.account.value, code));
      if key !in db.backups {
        return Err(Credentials);
      }
      db := db.(backups := db.backups - {key});
      return Ok(None);
    }

    /** verify: one proof, by the method of its step. */
    method Verify(cfg: Config, now: Time, id: Id, cid: Id, proof: Proof) returns (r: Result<Option<Id>>)
      requires id in db.procs && cid in db.steps
      modifies this
      ensures Concluded(Challenges.Verify(cfg, old(db), now, id, old(db).procs[id], cid, old(db).steps[cid], proof), r, old(db), db)
    {
      hide Challenges.VerifyPassword, Challenges.VerifyPasskey, Challenges.VerifyTotp, VerifyBackup;
      var p, step := db.procs[id], db.steps[cid];
      match proof
      case RegistrationProof(raw) =>
        var email := cfg.normalize(raw);
        if !cfg.parsesAsAddress(email) {
          return Err(Invalid);
        }
        if id in db.signups {
          return Err(Internal);
        }
        db := db.(signups := db.signups[id := Signup(email, None)]);
        return Ok(None);
      case SetupProof(password) =>
        if !AcceptablePassword(password) {
          return Err(Invalid);
        }
        if id in db.signups {
          db := ChoosePassword(db, id, password);
        }
        return Ok(None);
      case PasswordProof(login, password) =>
        r := VerifyPassword(cfg, id, p, login, password);
      case EmailProof(code) =>
        if !step.detail.CodeSent? {
          return Err(Internal);
        }
        return if step.detail.hash == Digest(EmailCodeTag, cid, code) then Ok(None) else Err(Credentials);
      case TotpProof(digits) =>
        r := VerifyTotp(cfg, now, id, p, digits);
      case BackupProof(code) =>
        r := VerifyBackupCode(id, p, code);
      case PasskeyProof(assertion) =>
        r := VerifyPasskey(cfg, id, p, assertion);
      case OtherProof(_) =>
        return Err(Unavailable);
    }

    // ---------- what follows a proof ----------

    /** The failure is counted on the process and on its step. */
    method RecordFailure(cfg: Config, id: Id, cid: Id)
      requires id in db.procs && cid in db.steps
      modifies this
      ensures db == CountFailure(cfg, old(db), id, cid)
    {
      var p := db.procs[id];
      p := p.(failures := p.failures + 1, status := Miss(p.status, p.failures, cfg.maxAttempts));
      db := db.(procs := db.procs[id := p]);
      var s := db.steps[cid];
      s := s.(failures := s.failures + 1, status := Miss(s.status, s.failures, cfg.maxAttempts));
      db := db.(steps := db.steps[cid := s]);
      hide Miss;
    }

    method CancelAlternatives(id: Id, accepted: Option<Id>)
      modifies this
      ensures db == old(db).(steps := CancelPending(old(db).steps, id, None, accepted))
    {
      db := db.(steps := CancelPending(db.steps, id, None, accepted));
    }

    method AcceptStep(id: Id, cid: Id, now: Time)
      requires cid in db.steps
      modifies this
      ensures db == Challenges.AcceptStep(old(db), id, cid, now)
    {
      db := db.(steps := db.steps[cid := db.steps[cid].(status := Completed, completed := Some(now))]);
      CancelAlternatives(id, Some(cid));
    }

    method FailRegistration(id: Id)
      requires id in db.procs
      modifies this
      ensures db == Challenges.FailRegistration(old(db), id)
    {
      db := db.(procs := db.procs[id := db.procs[id].(status := Failed)]);
      CancelAlternatives(id, None);
      if id in db.signups {
        db := db.(signups := db.signups[id := db.signups[id].(password := None)]);
      }
    }

    /** register: the new account, or why there is none. */
    method Register(id: Id) returns (r: Result<Id>)
      modifies this
      ensures r == if id !in old(db).signups then Err(Internal)
                   else if old(db).signups[id].password.None? then Err(Forbidden)
                   else if AddressTaken(old(db), id) then Err(AccountExists)
                   else Ok(old(db).supply)
      ensures db == if r.Ok? then Challenges.Register(old(db), id) else old(db)
    {
      hide EmailTaken;
      if id !in db.signups {
        return Err(Internal);
      }
      var row := db.signups[id];
      if row.password.None? {
        return Err(Forbidden);
      }
      if AddressTaken(db, id) {
        return Err(AccountExists);
      }
      var account := db.supply;
      db := db.(accounts := db.accounts[account := Account(row.email, None, row.password, false)], supply := account + 1);
      db := db.(outbox := db.outbox + [ProfileCreated(account)]);
      db := db.(signups := db.signups - {id});
      return Ok(account);
    }

    /** replaceBackupCodes: the old codes go, ten new ones are drawn one by one. */
    method ReplaceBackupCodes(account: Id) returns (codes: seq<Id>)
      modifies this
      ensures Commit(db, Codes(codes)) == Totps.ReplaceBackupCodes(old(db), account)
    {
      hide Totps.ReplaceBackupCodes, BackupHashes;
      var first := db.supply;
      var others := set b | b in db.backups && b.account != account;
      db := db.(backups := others);
      codes := [];
      NoBackupHash(account, first);
      while |codes| < BACKUP_CODES
        invariant |codes| <= BACKUP_CODES && forall i | 0 <= i < |codes| :: codes[i] == first + i
        invariant db.backups == others + BackupHashes(account, first, |codes|)
        invariant db.supply == first + |codes| && db == old(db).(backups := db.backups, supply := db.supply)
      {
        var token := db.supply;
        NextBackupHash(account, first, |codes|);
        codes := codes + [token];
        db := db.(backups := db.backups + {BackupKey(account, Digest(BackupTag, account, token))}, supply := token + 1);
      }
      ReplacedIs(old(db), account, codes, db);
    }

    /** The DELETE statements of Cleanup, one after the other. */
    method Purge(cfg: Config, now: Time)
      modifies this
      ensures db == ExecuteAll(cfg, old(db), now, STATEMENTS)
    {
      hide Execute;
      for i := 0 to |STATEMENTS|
        invariant db == ExecuteAll(cfg, old(db), now, STATEMENTS[..i])
      {
        assert STATEMENTS[..i + 1][..i] == STATEMENTS[..i];
        db := Execute(cfg, db, now, STATEMENTS[i]);
      }
      assert STATEMENTS[..|STATEMENTS|] == STATEMENTS;
    }
  }

  /** A method ended as its specification: with its account and database, or its error and the database untouched. */
  predicate Concluded(v: Result<Proved>, r: Result<Option<Id>>, before: DB, after: DB) {
    if v.Ok? then r == Ok(v.value.account) && after == v.value.db else r == Err(v.error) && after == before
  }

  lemma NoBackupHash(account: Id, first: Id)
    ensures BackupHashes(account, first, 0) == {}
  {
  }

  lemma NextBackupHash(account: Id, first: Id, n: nat)
    ensures BackupHashes(account, first, n + 1) == BackupHashes(account, first, n) + {BackupKey(account, Digest(BackupTag, account, first + n))}
  {
  }

  lemma ReplacedIs(db: DB, account: Id, codes: seq<Id>, d: DB)
    requires |codes| == BACKUP_CODES && forall i | 0 <= i < |codes| :: codes[i] == db.supply + i
    requires d.backups == (set b | b in db.backups && b.account != account) + BackupHashes(account, db.supply, BACKUP_CODES)
    requires d.supply == db.supply + BACKUP_CODES && d == db.(backups := d.backups, supply := d.supply)
    ensures Commit(d, Codes(codes)) == ReplaceBackupCodes(db, account)
  {
    hide BackupHashes;
    assert codes == seq(BACKUP_CODES, i requires 0 <= i => db.supply + i);
  }
}
