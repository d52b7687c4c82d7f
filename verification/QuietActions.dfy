/** Which transactions are quiet: all but starting a process, creating a step and judging a proof. */
module QuietActions {
  import opened Base
  import opened Secrets
  import opened Store
  import opened Answers
  import opened Processes
  import opened Challenges
  import opened OAuth
  import opened Accounts
  import opened Totps
  import opened Sessions
  import opened Mails
  import opened CredentialOps
  import opened Cleanups
  import opened Invariant
  import opened Quietness
  import opened Protocol

  /** Steps and registrations hang on processes. */
  ghost predicate Rooted(db: DB) {
    (forall s | s in db.steps :: db.steps[s].process in db.procs) && db.signups.Keys <= db.procs.Keys
  }

  lemma QuietRooted(a: DB, b: DB)
    requires Quiet(a, b)
    ensures Rooted(b)
  {
  }

  lemma QuietTransitive(a: DB, b: DB, c: DB)
    requires Quiet(a, b) && Quiet(b, c)
    ensures Quiet(a, c)
  {
    assert QuietProcs(a.procs, c.procs) by {
      forall p | p in c.procs
        ensures p in a.procs && Calmer(a.procs[p], c.procs[p])
      {
        assert Calmer(a.procs[p], b.procs[p]) && Calmer(b.procs[p], c.procs[p]);
      }
    }
    assert QuietTotp(a.totp, c.totp, c.procs) by {
      forall p | p in c.procs && c.procs[p].invalid.None?
        ensures Enrolled(c.procs[p], a.totp) <==> Enrolled(c.procs[p], c.totp)
      {
        assert Calmer(b.procs[p], c.procs[p]);
      }
    }
    assert QuietSteps(a.steps, c.steps, c.procs) by {
      hide Calmer, QuietTotp;
    }
    assert QuietSignups(a.signups, c.signups, c.procs) by {
      hide Calmer, QuietTotp, QuietSteps;
    }
  }

  // ---------- building blocks ----------

  predicate SameFlows(a: DB, b: DB) {
    b.procs == a.procs && b.steps == a.steps && b.signups == a.signups && b.totp == a.totp && a.supply <= b.supply
  }

  lemma QuietSame(a: DB, b: DB)
    requires Rooted(a) && SameFlows(a, b)
    ensures Quiet(a, b)
  {
  }

  lemma QuietRow(a: DB, b: DB, id: Id, q: Process)
    requires Rooted(a) && id in a.procs && Calmer(a.procs[id], q) && b.procs == a.procs[id := q]
    requires b.steps == a.steps && b.signups == a.signups && b.totp == a.totp && a.supply <= b.supply
    ensures Quiet(a, b)
  {
  }

  lemma QuietInvalidate(a: DB, d: DB, account: Id, now: Time)
    requires Rooted(a) && d.procs == a.procs && d.steps == a.steps && d.signups == a.signups && a.supply <= d.supply
    requires forall x | x != account :: x in d.totp <==> x in a.totp
    ensures Quiet(a, Invalidate(d, account, now))
  {
    var b := Invalidate(d, account, now);
    assert QuietProcs(a.procs, b.procs);
    assert b.procs.Keys == a.procs.Keys;
    assert QuietTotp(a.totp, b.totp, b.procs);
  }

  lemma QuietDropProcesses(a: DB, keep: map<Id, Process>)
    requires Rooted(a) && (forall p | p in keep :: p in a.procs && keep[p] == a.procs[p])
    ensures Quiet(a, DropProcesses(a, keep))
  {
  }

  lemma QuietDropSessions(a: DB, gone: set<Id>)
    requires Rooted(a)
    ensures Quiet(a, DropSessions(a, gone))
  {
  }

  lemma QuietDropAccount(a: DB, account: Id)
    requires Rooted(a)
    ensures Quiet(a, DropAccount(a, account))
  {
  }

  lemma QuietSpend(db: DB, now: Time, token: Id, purpose: Purpose, who: Principal)
    requires Rooted(db) && ConsumeGrant(db, now, token, purpose, who).Ok?
    ensures Quiet(db, ConsumeGrant(db, now, token, purpose, who).value.db)
  {
    var spent := ConsumeGrant(db, now, token, purpose, who).value;
    hide ConsumeGrant;
    QuietRow(db, spent.db, spent.process, db.procs[spent.process].(grant := None));
  }

  /** A grant is spent and tables without processes change. */
  lemma QuietSpendSame(db: DB, now: Time, token: Id, purpose: Purpose, who: Principal, d: DB)
    requires Rooted(db) && ConsumeGrant(db, now, token, purpose, who).Ok?
    requires SameFlows(ConsumeGrant(db, now, token, purpose, who).value.db, d)
    ensures Quiet(db, d)
  {
    QuietSpend(db, now, token, purpose, who);
    var c := ConsumeGrant(db, now, token, purpose, who).value.db;
    QuietRooted(db, c);
    QuietSame(c, d);
    hide *;
    QuietTransitive(db, c, d);
  }

  /** A grant is spent, a credential changes and the account's processes are invalidated. */
  lemma QuietSpendInvalidate(db: DB, now: Time, token: Id, purpose: Purpose, who: Principal, d: DB)
    requires Rooted(db) && ConsumeGrant(db, now, token, purpose, who).Ok?
    requires var s := ConsumeGrant(db, now, token, purpose, who).value;
      && d.procs == s.db.procs && d.steps == s.db.steps && d.signups == s.db.signups && s.db.supply <= d.supply
      && forall x | x != s.account :: x in d.totp <==> x in s.db.totp
    ensures Quiet(db, Invalidate(d, ConsumeGrant(db, now, token, purpose, who).value.account, now))
  {
    QuietSpend(db, now, token, purpose, who);
    var s := ConsumeGrant(db, now, token, purpose, who).value;
    QuietRooted(db, s.db);
    QuietInvalidate(s.db, d, s.account, now);
    hide *;
    QuietTransitive(db, s.db, Invalidate(d, s.account, now));
  }

  // ---------- passwords, usernames, deletion ----------

  lemma ReplacePasswordQuiet(db: DB, now: Time, account: Id, password: Store.Password, keep: set<Id>)
    requires Rooted(db) && account in db.accounts
    ensures Quiet(db, Settle(db, ReplacePassword(db, now, account, password, keep)).db)
  {
    var b := Invalidate(StorePassword(db, account, password), account, now);
    QuietInvalidate(db, StorePassword(db, account, password), account, now);
    var c := Notify(b, account, PasswordChanged);
    QuietRooted(db, b);
    QuietSame(b, c);
    QuietDropSessions(c, SessionsOf(c, account) - keep);
    hide Quiet, DropSessions;
    QuietTransitive(db, b, c);
    QuietTransitive(db, c, DropSessions(c, SessionsOf(c, account) - keep));
  }

  lemma ChangePasswordQuiet(cfg: Config, db: DB, now: Time, account: Id, session: Id, existing: PasswordHash, password: Store.Password)
    requires Rooted(db) && account in db.accounts
    ensures Quiet(db, Settle(db, ChangePassword(cfg, db, now, account, session, existing, password)).db)
  {
    hide Quiet, ReplacePassword, Rooted;
    QuietSame(db, db);
    ReplacePasswordQuiet(db, now, account, password, {session});
  }

  lemma SetPasswordQuiet(cfg: Config, db: DB, now: Time, who: Principal, grant: Id, password: Store.Password)
    requires Rooted(db)
    ensures Quiet(db, Settle(db, SetPasswordTx(cfg, db, now, who, grant, password)).db)
  {
    hide Quiet, ReplacePassword, ChangePassword, ConsumeGrant, Rooted, HoldsGrant, Spendable, PurposePrincipal;
    QuietSame(db, db);
    if SetPasswordTx(cfg, db, now, who, grant, password).Ok? {
      var existing := db.accounts[who.account].password;
      if existing.None? {
        ReplacePasswordQuiet(db, now, who.account, password, {who.session});
      } else {
        var c := ConsumeGrant(db, now, grant, PasswordChange, who).value.db;
        QuietSpend(db, now, grant, PasswordChange, who);
        QuietRooted(db, c);
        ChangePasswordQuiet(cfg, c, now, who.account, who.session, existing.value, password);
        QuietTransitive(db, c, Settle(c, ChangePassword(cfg, c, now, who.account, who.session, existing.value, password)).db);
      }
    }
  }

  lemma SetUsernameQuiet(cfg: Config, db: DB, now: Time, who: Principal, username: string)
    requires Rooted(db)
    ensures Quiet(db, Settle(db, SetUsernameTx(cfg, db, now, who, username)).db)
  {
    hide Quiet, ValidUsername, UsernameTaken;
    QuietSame(db, db);
    if SetUsernameTx(cfg, db, now, who, username).Ok? {
      var row := db.accounts[who.account].(username := Some(cfg.normalize(username)));
      QuietSame(db, Notify(SetAccount(db, who.account, row), who.account, UsernameChanged));
    }
  }

  lemma RequestDeletionQuiet(db: DB, now: Time, who: Principal, grant: Id, shared: bool, delay: int)
    requires Rooted(db)
    ensures Quiet(db, Settle(db, RequestDeletionTx(db, now, who, grant, shared, delay)).db)
  {
    QuietSame(db, db);
    hide Quiet, ConsumeGrant;
    if RequestDeletionTx(db, now, who, grant, shared, delay).Ok? {
      QuietSpendSame(db, now, grant, AccountDeletion, who, RequestDeletionTx(db, now, who, grant, shared, delay).value.db);
    }
  }

  lemma PatchDeletionQuiet(db: DB, now: Time, who: Principal, shared: bool)
    requires Rooted(db)
    ensures Quiet(db, Settle(db, PatchDeletionTx(db, now, who, shared)).db)
  {
    hide Quiet;
    var d := Settle(db, PatchDeletionTx(db, now, who, shared)).db;
    assert d == db.(deletions := d.deletions);
    QuietSame(db, d);
  }

  lemma CancelDeletionQuiet(db: DB, now: Time, who: Principal)
    requires Rooted(db)
    ensures Quiet(db, Settle(db, CancelDeletionTx(db, now, who)).db)
  {
    hide Quiet;
    var d := Settle(db, CancelDeletionTx(db, now, who)).db;
    assert d == db.(deletions := d.deletions);
    QuietSame(db, d);
  }

  lemma DeleteDueQuiet(db: DB, now: Time)
    requires Rooted(db)
    ensures Quiet(db, Settle(db, DeleteDueTx(db, now)).db)
  {
    QuietSame(db, db);
    hide Quiet, DropAccount;
    var due := NextDue(db.accounts, db.deletions, db.supply, now);
    if due.Some? {
      var a := due.value;
      var c := Notify(Enqueue(db, ProfileDeleted(a, db.deletions[a].shared)), a, AccountDeleted);
      QuietSame(db, c);
      QuietDropAccount(c, a);
      QuietTransitive(db, c, DropAccount(c, a));
    }
  }

  // ---------- second factors ----------

  lemma StartTotpQuiet(db: DB, now: Time, who: Principal, grant: Id)
    requires Rooted(db)
    ensures Quiet(db, Settle(db, StartTotpTx(db, now, who, grant)).db)
  {
    QuietSame(db, db);
    hide Quiet, ConsumeGrant;
    if StartTotpTx(db, now, who, grant).Ok? {
      QuietSpendSame(db, now, grant, TotpEnrollment, who, StartTotpTx(db, now, who, grant).value.db);
    }
  }

  lemma ConfirmTotpQuiet(cfg: Config, db: DB, now: Time, who: Principal, digits: string)
    requires Rooted(db)
    ensures Quiet(db, Settle(db, ConfirmTotpTx(cfg, db, now, who, digits)).db)
  {
    QuietSame(db, db);
    hide Quiet, TotpStep, Invalidate, DropSessions;
    var r := ConfirmTotpTx(cfg, db, now, who, digits);
    if r.Ok? {
      var a := who.account;
      var key := db.activations[a].key;
      var used := TotpStep(cfg.mac, key, digits, now, -1);
      var c := db.(totp := db.totp[a := TotpFactor(key, used.value)], activations := db.activations - {a});
      QuietInvalidate(db, c, a, now);
      var d := Invalidate(c, a, now);
      QuietRooted(db, d);
      var e := DropSessions(d, SessionsOf(d, a) - {who.session});
      QuietDropSessions(d, SessionsOf(d, a) - {who.session});
      QuietRooted(d, e);
      QuietSame(e, r.value.db);
      QuietTransitive(db, d, e);
      QuietTransitive(db, e, r.value.db);
    }
  }

  lemma DeleteTotpQuiet(db: DB, now: Time, who: Principal, grant: Id)
    requires Rooted(db)
    ensures Quiet(db, Settle(db, DeleteTotpTx(db, now, who, grant)).db)
  {
    QuietSame(db, db);
    hide Quiet, ConsumeGrant, Invalidate;
    var r := ConsumeGrant(db, now, grant, TotpRemoval, who);
    if r.Ok? {
      var s := r.value;
      QuietSpendInvalidate(db, now, grant, TotpRemoval, who, s.db.(totp := s.db.totp - {s.account}));
    }
  }

  lemma RotateBackupCodesQuiet(db: DB, now: Time, who: Principal, grant: Id)
    requires Rooted(db)
    ensures Quiet(db, Settle(db, RotateBackupCodesTx(db, now, who, grant)).db)
  {
    QuietSame(db, db);
    hide Quiet, ConsumeGrant, Invalidate;
    var r := ConsumeGrant(db, now, grant, BackupCodesRotation, who);
    if r.Ok? {
      QuietSpendInvalidate(db, now, grant, BackupCodesRotation, who, ReplaceBackupCodes(r.value.db, r.value.account).db);
    }
  }

  // ---------- sessions ----------

  lemma CreateSessionQuiet(db: DB, now: Time, grant: Id, ttl: int)
    requires Rooted(db)
    ensures Quiet(db, Settle(db, CreateSessionTx(db, now, grant, ttl)).db)
  {
    QuietSame(db, db);
    hide Quiet, ConsumeGrant;
    var d := Settle(db, CreateSessionTx(db, now, grant, ttl)).db;
    if CreateSessionTx(db, now, grant, ttl).Ok? {
      var purpose := db.procs[ProcByGrant(db.procs, db.supply, Digest(GrantTag, 0, grant)).value].purpose;
      var s := ConsumeGrant(db, now, grant, purpose, Anonymous).value;
      QuietSpend(db, now, grant, purpose, Anonymous);
      QuietRooted(db, s.db);
      QuietSame(s.db, d);
      QuietTransitive(db, s.db, d);
    }
  }

  lemma RefreshQuiet(db: DB, now: Time, id: Id, refresh: Id, ttl: int)
    requires Rooted(db)
    ensures Quiet(db, Settle(db, RefreshTx(db, now, id, refresh, ttl)).db)
  {
    hide Quiet;
    QuietSame(db, Settle(db, RefreshTx(db, now, id, refresh, ttl)).db);
  }

  lemma RevokeQuiet(db: DB, now: Time, who: Principal, only: Option<Id>, id: Id, refresh: Id)
    requires Rooted(db)
    ensures Quiet(db, Settle(db, RevokeSessionsTx(db, now, who, only)).db)
    ensures Quiet(db, Settle(db, LogoutRefreshTx(db, id, refresh)).db)
  {
    QuietSame(db, db);
    hide Quiet, DropSessions;
    QuietDropSessions(db, {id});
    if LiveSession(db, now, who) {
      var own := SessionsOf(db, who.account);
      QuietDropSessions(db, if only.Some? then own * {only.value} else own);
    }
  }

  // ---------- mail ----------

  lemma StartPasswordResetQuiet(cfg: Config, db: DB, now: Time, email: string, baseOk: bool)
    requires Rooted(db)
    ensures Quiet(db, Settle(db, StartPasswordResetTx(cfg, db, now, email, baseOk)).db)
  {
    hide Quiet, AccountByEmail;
    QuietSame(db, Settle(db, StartPasswordResetTx(cfg, db, now, email, baseOk)).db);
  }

  lemma ConfirmPasswordResetQuiet(db: DB, now: Time, link: Id, password: Store.Password)
    requires Rooted(db)
    ensures Quiet(db, Settle(db, ConfirmPasswordResetTx(db, now, link, password)).db)
  {
    QuietSame(db, db);
    hide Quiet, ReplacePassword;
    if ConfirmPasswordResetTx(db, now, link, password).Ok? {
      var a := ResetByToken(db.resets, db.supply, Digest(ResetTag, 0, link)).value;
      var c := db.(resets := db.resets - {a});
      QuietSame(db, c);
      ReplacePasswordQuiet(c, now, a, password, {});
      QuietTransitive(db, c, Settle(c, ReplacePassword(c, now, a, password, {})).db);
    }
  }

  lemma ChangeEmailQuiet(cfg: Config, db: DB, now: Time, who: Principal, grant: Id, email: string, baseOk: bool)
    requires Rooted(db)
    ensures Quiet(db, Settle(db, ChangeEmailTx(cfg, db, now, who, grant, email, baseOk)).db)
  {
    QuietSame(db, db);
    hide Quiet, ConsumeGrant;
    if ChangeEmailTx(cfg, db, now, who, grant, email, baseOk).Ok? {
      QuietSpendSame(db, now, grant, EmailChanging, who, ChangeEmailTx(cfg, db, now, who, grant, email, baseOk).value.db);
    }
  }

  lemma ConfirmEmailQuiet(db: DB, now: Time, link: Id, baseOk: bool)
    requires Rooted(db)
    ensures Quiet(db, Settle(db, ConfirmEmailTx(db, now, link, baseOk)).db)
  {
    QuietSame(db, db);
    hide Quiet, EmailTaken, ChangeByToken, Invalidate;
    var found := ChangeByToken(db.changes, db.supply, Digest(EmailChangeTag, 0, link));
    if found.Some? {
      QuietSame(db, AskNewAddress(db, found.value, now));
      if found.value in db.accounts {
        QuietInvalidate(db, MoveAddress(db, found.value), found.value, now);
      }
      hide AskNewAddress, MoveAddress;
    }
    hide AskNewAddress, MoveAddress;
  }

  // ---------- identities and passkeys ----------

  lemma PrepareIdentityQuiet(cfg: Config, db: DB, now: Time, who: Principal, provider: Provider, redirect: string, libraryOk: bool)
    requires Rooted(db)
    ensures Quiet(db, Settle(db, PrepareIdentityTx(cfg, db, now, who, provider, redirect, libraryOk)).db)
  {
    hide Quiet, FullPrincipal;
    var d := Settle(db, PrepareIdentityTx(cfg, db, now, who, provider, redirect, libraryOk)).db;
    assert d == db.(oauth := d.oauth, supply := d.supply) && db.supply <= d.supply;
    QuietSame(db, d);
  }

  lemma BeginLinkQuiet(cfg: Config, db: DB, now: Time, who: Principal, provider: Provider, state: Id)
    requires Rooted(db)
    ensures Quiet(db, Settle(db, BeginLinkTx(cfg, db, now, who, provider, state)).db)
  {
    hide Quiet, FullPrincipal;
    var d := Settle(db, BeginLinkTx(cfg, db, now, who, provider, state)).db;
    assert d == db.(oauth := d.oauth);
    QuietSame(db, d);
  }

  lemma BeginProviderQuiet(cfg: Config, db: DB, now: Time, id: Id, cid: Id, flow: Id, who: Principal, kind: Kind, token: ProviderProof)
    requires Rooted(db)
    ensures Quiet(db, Settle(db, BeginProviderTx(cfg, db, now, id, cid, flow, who, kind, token)).db)
  {
    hide Quiet, Load, Next;
    QuietSame(db, Settle(db, BeginProviderTx(cfg, db, now, id, cid, flow, who, kind, token)).db);
  }

  lemma FinishLinkQuiet(db: DB, now: Time, who: Principal, grant: Id, provider: Provider, subject: string)
    requires Rooted(db)
    ensures Quiet(db, Settle(db, FinishLinkTx(db, now, who, grant, provider, subject)).db)
  {
    QuietSame(db, db);
    hide Quiet, ConsumeGrant, Invalidate, IdentityTaken, Rooted;
    if FinishLinkTx(db, now, who, grant, provider, subject).Ok? {
      var s := ConsumeGrant(db, now, grant, IdentityLink, who).value;
      var key := IdentityKey(s.account, provider);
      if key in s.db.identities {
        QuietSpend(db, now, grant, IdentityLink, who);
      } else {
        var d := s.db.(identities := s.db.identities[key := subject]);
        assert d.procs == s.db.procs && d.totp == s.db.totp;
        QuietSpendInvalidate(db, now, grant, IdentityLink, who, d);
      }
    }
  }

  lemma UnlinkIdentityQuiet(db: DB, now: Time, who: Principal, grant: Id, provider: Provider)
    requires Rooted(db)
    ensures Quiet(db, Settle(db, UnlinkIdentityTx(db, now, who, grant, provider)).db)
  {
    QuietSame(db, db);
    if UnlinkIdentityTx(db, now, who, grant, provider).Ok? {
      hide Quiet, ConsumeGrant, Invalidate, HasOtherCredential;
      var s := ConsumeGrant(db, now, grant, IdentityUnlink, who).value;
      QuietSpendInvalidate(db, now, grant, IdentityUnlink, who, s.db.(identities := s.db.identities - {IdentityKey(s.account, provider)}));
    }
  }

  lemma StartPasskeyQuiet(cfg: Config, db: DB, now: Time, who: Principal, grant: Id, libraryOk: bool)
    requires Rooted(db)
    ensures Quiet(db, Settle(db, StartPasskeyTx(cfg, db, now, who, grant, libraryOk)).db)
  {
    QuietSame(db, db);
    hide Quiet, ConsumeGrant;
    if StartPasskeyTx(cfg, db, now, who, grant, libraryOk).Ok? {
      QuietSpendSame(db, now, grant, PasskeyEnrollment, who, StartPasskeyTx(cfg, db, now, who, grant, libraryOk).value.db);
    }
  }

  lemma RegisterPasskeyQuiet(cfg: Config, db: DB, now: Time, who: Principal, request: Id, name: string, credential: Option<Id>)
    requires Rooted(db)
    ensures Quiet(db, Settle(db, RegisterPasskeyTx(cfg, db, now, who, request, name, credential)).db)
  {
    QuietSame(db, db);
    hide Quiet, Invalidate;
    if RegisterPasskeyTx(cfg, db, now, who, request, name, credential).Ok? {
      var c := db.(passkeys := db.passkeys[db.supply := PasskeyRow(who.account, credential.value)],
                   passkeyRequests := db.passkeyRequests - {request}, supply := db.supply + 1);
      QuietInvalidate(db, c, who.account, now);
    }
  }

  lemma DeletePasskeyQuiet(db: DB, now: Time, who: Principal, grant: Id, passkey: Id)
    requires Rooted(db)
    ensures Quiet(db, Settle(db, DeletePasskeyTx(db, now, who, grant, passkey)).db)
  {
    QuietSame(db, db);
    if DeletePasskeyTx(db, now, who, grant, passkey).Ok? {
      hide Quiet, ConsumeGrant, Invalidate, HasOtherCredential;
      var s := ConsumeGrant(db, now, grant, PasskeyRemoval, who).value;
      QuietSpendInvalidate(db, now, grant, PasskeyRemoval, who, s.db.(passkeys := WithoutPasskey(s.db.passkeys, s.account, passkey)));
    }
  }

  // ---------- cleanup and the operator ----------

  lemma ExecuteQuiet(cfg: Config, db: DB, now: Time, q: Statement)
    requires Rooted(db)
    ensures Quiet(db, Execute(cfg, db, now, q))
  {
    if q == PurgeProcesses {
      QuietDropProcesses(db, Uncollected(cfg, db.procs, now));
    } else if q == PurgeSessions {
      QuietDropSessions(db, Expired(db.sessions, now));
    } else {
      ExecuteSmall(cfg, db, now, q);
      QuietSame(db, Execute(cfg, db, now, q));
    }
    hide Quiet, DropProcesses, DropSessions;
  }

  // The other statements touch one request table each.
  lemma ExecuteSmall(cfg: Config, db: DB, now: Time, q: Statement)
    requires q != PurgeProcesses && q != PurgeSessions
    ensures SameFlows(db, Execute(cfg, db, now, q))
  {
  }

  lemma {:induction false} CleanupQuiet(cfg: Config, db: DB, now: Time, qs: seq<Statement>)
    requires Rooted(db)
    ensures Quiet(db, ExecuteAll(cfg, db, now, qs))
  {
    if qs == [] {
      QuietSame(db, db);
    } else {
      hide Execute, Quiet;
      var d := ExecuteAll(cfg, db, now, qs[..|qs| - 1]);
      CleanupQuiet(cfg, db, now, qs[..|qs| - 1]);
      QuietRooted(db, d);
      ExecuteQuiet(cfg, d, now, qs[|qs| - 1]);
      QuietTransitive(db, d, Execute(cfg, d, now, qs[|qs| - 1]));
    }
  }

  lemma SetBlockedQuiet(db: DB, account: Id, blocked: bool)
    requires Rooted(db)
    ensures Quiet(db, Settle(db, SetBlockedTx(db, account, blocked)).db)
  {
    hide Quiet;
    QuietSame(db, Settle(db, SetBlockedTx(db, account, blocked)).db);
  }
}
