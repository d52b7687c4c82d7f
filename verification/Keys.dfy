/** Keys and tokens: every transaction keeps unique columns unique and draws what it stores from the supply. */
module KeyActions {
  import opened Base
  import opened Secrets
  import opened Store
  import opened Answers
  import opened Processes
  import opened Challenges
  import opened OAuth
  import opened Accounts
  import opened Totps
  import opened Sessions
  import opened Mails
  import opened CredentialOps
  import opened Cleanups
  import opened Protocol
  import opened Invariant
  import opened Quietness
  import opened Frames
  import opened Attempts
  import opened Registrations

  ghost predicate Within<K, V>(b: map<K, V>, a: map<K, V>) {
    forall k | k in b :: k in a && b[k] == a[k]
  }

  lemma WithinItself<K, V>(a: map<K, V>)
    ensures Within(a, a)
  {
  }

  // ---------- transactions that drop rows ----------

  /** Rows of these tables were dropped, never changed. */
  ghost predicate Shrunk(a: DB, b: DB) {
    && Within(b.sessions, a.sessions) && Within(b.oauth, a.oauth) && Within(b.changes, a.changes) && Within(b.resets, a.resets)
    && Within(b.activations, a.activations)
  }

  lemma ShrunkTransitive(a: DB, b: DB, c: DB)
    requires Shrunk(a, b) && Shrunk(b, c)
    ensures Shrunk(a, c)
  {
  }

  lemma DropSessionsShrinks(db: DB, gone: set<Id>)
    ensures Shrunk(db, DropSessions(db, gone))
  {
  }

  lemma DropAccountShrinks(db: DB, account: Id)
    ensures Shrunk(db, DropAccount(db, account))
  {
  }

  lemma ExecuteShrinks(cfg: Config, db: DB, now: Time, q: Statement)
    ensures Shrunk(db, Execute(cfg, db, now, q))
  {
    DropSessionsShrinks(db, Expired(db.sessions, now));
    hide DropSessions;
  }

  lemma {:induction false} CleanupShrinks(cfg: Config, db: DB, now: Time, qs: seq<Statement>)
    ensures Shrunk(db, ExecuteAll(cfg, db, now, qs))
  {
    if qs != [] {
      var d := ExecuteAll(cfg, db, now, qs[..|qs| - 1]);
      CleanupShrinks(cfg, db, now, qs[..|qs| - 1]);
      ExecuteShrinks(cfg, d, now, qs[|qs| - 1]);
      hide Execute, Shrunk;
      ShrunkTransitive(db, d, Execute(cfg, d, now, qs[|qs| - 1]));
    }
  }

  lemma ReplacePasswordShrinks(db: DB, now: Time, account: Id, password: Store.Password, keep: set<Id>)
    requires account in db.accounts
    ensures Shrunk(db, Settle(db, ReplacePassword(db, now, account, password, keep)).db)
  {
    var d := Notify(Invalidate(StorePassword(db, account, password), account, now), account, PasswordChanged);
    DropSessionsShrinks(d, SessionsOf(d, account) - keep);
    assert d == db.(accounts := d.accounts, procs := d.procs, outbox := d.outbox, supply := d.supply);
    hide DropSessions, Notify, Invalidate, StorePassword;
  }

  lemma SetPasswordShrinks(cfg: Config, db: DB, now: Time, who: Principal, grant: Id, password: Store.Password)
    ensures Shrunk(db, Settle(db, SetPasswordTx(cfg, db, now, who, grant, password)).db)
  {
    hide ReplacePassword, ConsumeGrant, PurposePrincipal;
    if SetPasswordTx(cfg, db, now, who, grant, password).Ok? {
      if db.accounts[who.account].password.None? {
        ReplacePasswordShrinks(db, now, who.account, password, {who.session});
      } else {
        var d := ConsumeGrant(db, now, grant, PasswordChange, who).value.db;
        ReplacePasswordShrinks(d, now, who.account, password, {who.session});
      }
    }
  }

  lemma ConfirmPasswordResetShrinks(db: DB, now: Time, link: Id, password: Store.Password)
    ensures Shrunk(db, Settle(db, ConfirmPasswordResetTx(db, now, link, password)).db)
  {
    hide ReplacePassword, ResetByToken;
    if ConfirmPasswordResetTx(db, now, link, password).Ok? {
      var a := ResetByToken(db.resets, db.supply, Digest(ResetTag, 0, link)).value;
      ReplacePasswordShrinks(db.(resets := db.resets - {a}), now, a, password, {});
    }
  }

  lemma ConfirmTotpShrinks(cfg: Config, db: DB, now: Time, who: Principal, digits: string)
    ensures Shrunk(db, Settle(db, ConfirmTotpTx(cfg, db, now, who, digits)).db)
  {
    hide TotpStep, DropSessions, PurposePrincipal, BackupHashes;
    if ConfirmTotpTx(cfg, db, now, who, digits).Ok? {
      var a := who.account;
      var key := db.activations[a].key;
      var used := TotpStep(cfg.mac, key, digits, now, -1);
      var c := db.(totp := db.totp[a := TotpFactor(key, used.value)], activations := db.activations - {a});
      var d := Invalidate(c, a, now);
      DropSessionsShrinks(d, SessionsOf(d, a) - {who.session});
    }
  }

  lemma RevokeShrinks(db: DB, now: Time, who: Principal, only: Option<Id>, session: Id, refresh: Id)
    ensures Shrunk(db, Settle(db, RevokeSessionsTx(db, now, who, only)).db)
    ensures Shrunk(db, Settle(db, LogoutRefreshTx(db, session, refresh)).db)
  {
    hide DropSessions;
    if who.Bearer? {
      var own := SessionsOf(db, who.account);
      DropSessionsShrinks(db, if only.Some? then own * {only.value} else own);
    }
    DropSessionsShrinks(db, {session});
  }

  lemma DeleteDueShrinks(db: DB, now: Time)
    ensures Shrunk(db, Settle(db, DeleteDueTx(db, now)).db)
  {
    hide NextDue, DropAccount;
    var due := NextDue(db.accounts, db.deletions, db.supply, now);
    if due.Some? {
      DropAccountShrinks(Notify(Enqueue(db, ProfileDeleted(due.value, db.deletions[due.value].shared)), due.value, AccountDeleted), due.value);
    }
  }

  predicate Drops(a: Action) {
    a.Cleanup? || a.SetPassword? || a.ConfirmPasswordReset? || a.ConfirmTotp? || a.RevokeSessions? || a.LogoutRefresh? || a.DeleteDue?
  }

  lemma DropsShrink(cfg: Config, db: DB, call: Call)
    requires Drops(call.action)
    ensures Shrunk(db, Apply(cfg, db, call).db)
  {
    hide Shrunk, ExecuteAll, SetPasswordTx, ConfirmPasswordResetTx, ConfirmTotpTx, RevokeSessionsTx, LogoutRefreshTx, DeleteDueTx;
    match call.action
    case Cleanup => CleanupShrinks(cfg, db, call.now, STATEMENTS);
    case SetPassword(who, grant, password) => SetPasswordShrinks(cfg, db, call.now, who, grant, password);
    case ConfirmPasswordReset(link, password) => ConfirmPasswordResetShrinks(db, call.now, link, password);
    case ConfirmTotp(who, digits) => ConfirmTotpShrinks(cfg, db, call.now, who, digits);
    case RevokeSessions(who, only) => RevokeShrinks(db, call.now, who, only, 0, 0);
    case LogoutRefresh(session, refresh) => RevokeShrinks(db, call.now, Anonymous, None, session, refresh);
    case DeleteDue => DeleteDueShrinks(db, call.now);
  }

  // ---------- accounts ----------

  /** The same accounts under the same addresses. */
  ghost predicate EmailsKept(a: map<Id, Account>, b: map<Id, Account>) {
    && (forall x | x in a :: x in b && b[x].email == a[x].email)
    && (forall x | x in b :: x in a)
  }

  lemma RowKeepsEmails(accounts: map<Id, Account>)
    ensures EmailsKept(accounts, accounts)
    ensures forall x, row: Account | x in accounts && row.email == accounts[x].email :: EmailsKept(accounts, accounts[x := row])
  {
  }

  lemma ReplacePasswordEmails(db: DB, now: Time, account: Id, password: Store.Password, keep: set<Id>)
    requires account in db.accounts
    ensures EmailsKept(db.accounts, Settle(db, ReplacePassword(db, now, account, password, keep)).db.accounts)
  {
    var d := Notify(Invalidate(StorePassword(db, account, password), account, now), account, PasswordChanged);
    assert DropSessions(d, SessionsOf(d, account) - keep).accounts == d.accounts;
    hide DropSessions, Invalidate;
  }

  lemma SetPasswordEmails(cfg: Config, db: DB, now: Time, who: Principal, grant: Id, password: Store.Password)
    ensures EmailsKept(db.accounts, Settle(db, SetPasswordTx(cfg, db, now, who, grant, password)).db.accounts)
  {
    hide ReplacePassword, ConsumeGrant, PurposePrincipal;
    if SetPasswordTx(cfg, db, now, who, grant, password).Ok? {
      if db.accounts[who.account].password.None? {
        ReplacePasswordEmails(db, now, who.account, password, {who.session});
      } else {
        var d := ConsumeGrant(db, now, grant, PasswordChange, who).value.db;
        ReplacePasswordEmails(d, now, who.account, password, {who.session});
      }
    }
  }

  lemma ConfirmPasswordResetEmails(db: DB, now: Time, link: Id, password: Store.Password)
    ensures EmailsKept(db.accounts, Settle(db, ConfirmPasswordResetTx(db, now, link, password)).db.accounts)
  {
    hide ReplacePassword, ResetByToken;
    if ConfirmPasswordResetTx(db, now, link, password).Ok? {
      var a := ResetByToken(db.resets, db.supply, Digest(ResetTag, 0, link)).value;
      ReplacePasswordEmails(db.(resets := db.resets - {a}), now, a, password, {});
    }
  }

  lemma SetUsernameEmails(cfg: Config, db: DB, now: Time, who: Principal, username: string)
    ensures EmailsKept(db.accounts, Settle(db, SetUsernameTx(cfg, db, now, who, username)).db.accounts)
  {
    RowKeepsEmails(db.accounts);
    hide ValidUsername, UsernameTaken, EmailsKept;
  }

  lemma SetBlockedEmails(db: DB, account: Id, blocked: bool)
    ensures EmailsKept(db.accounts, Settle(db, SetBlockedTx(db, account, blocked)).db.accounts)
  {
    RowKeepsEmails(db.accounts);
    hide EmailsKept;
  }

  predicate KeepsEmails(a: Action) {
    !a.Attempt? && !a.ConfirmEmail? && !a.DeleteDue?
  }

  lemma ManyKeepEmails(cfg: Config, db: DB, call: Call)
    requires KeepsEmails(call.action)
    ensures EmailsKept(db.accounts, Apply(cfg, db, call).db.accounts)
  {
    hide EmailsKept, SetPasswordTx, ConfirmPasswordResetTx, SetUsernameTx, SetBlockedTx, Framed;
    if WritesAccounts(call.action) {
      match call.action
      case SetPassword(who, grant, password) => SetPasswordEmails(cfg, db, call.now, who, grant, password);
      case ConfirmPasswordReset(link, password) => ConfirmPasswordResetEmails(db, call.now, link, password);
      case SetUsername(who, username) => SetUsernameEmails(cfg, db, call.now, who, username);
      case SetBlocked(account, blocked) => SetBlockedEmails(db, account, blocked);
    } else {
      EveryActionFramed(cfg, db, call);
      hide Apply;
      OthersKeepAccounts(call.action, db, Apply(cfg, db, call).db);
    }
  }

  lemma OthersKeepAccounts(action: Action, a: DB, b: DB)
    requires Framed(action, a, b) && !WritesAccounts(action)
    ensures EmailsKept(a.accounts, b.accounts)
  {
  }

  /** An address changed hands: x now has email, which nobody else had. */
  ghost predicate EmailMoved(a: map<Id, Account>, b: map<Id, Account>, x: Id, email: string) {
    && x in a && x in b && b.Keys == a.Keys && b[x].email == email
    && (forall y | y in b && y != x :: b[y].email == a[y].email && a[y].email != email)
  }

  lemma MoveAddressMoves(db: DB, a: Id)
    requires a in db.changes && a in db.accounts && !EmailTaken(db, db.changes[a].email)
    ensures EmailMoved(db.accounts, MoveAddress(db, a).accounts, a, db.changes[a].email)
  {
  }

  /** The account whose change request holds the token, if it is live. */
  function Changing(db: DB, now: Time, link: Id): (r: Option<Id>)
    ensures r.Some? ==> r.value in db.changes && db.changes[r.value].token == Digest(EmailChangeTag, 0, link) && db.changes[r.value].expires > now
  {
    var found := ChangeByToken(db.changes, db.supply, Digest(EmailChangeTag, 0, link));
    if found.Some? && db.changes[found.value].expires > now then found else None
  }

  predicate Movable(db: DB, x: Id)
    requires x in db.changes
  {
    x in db.accounts && db.accounts[x].email == db.changes[x].previous && !EmailTaken(db, db.changes[x].email)
  }

  lemma ConfirmEmailDecides(db: DB, now: Time, link: Id, baseOk: bool)
    requires ConfirmEmailTx(db, now, link, baseOk).Ok?
    ensures Changing(db, now, link).Some?
    ensures var x := Changing(db, now, link).value;
      if db.changes[x].stage == AwaitingPrevious then ConfirmEmailTx(db, now, link, baseOk) == Ok(Commit(AskNewAddress(db, x, now), Flag(false)))
      else Movable(db, x) && ConfirmEmailTx(db, now, link, baseOk) == Ok(Commit(Invalidate(MoveAddress(db, x), x, now), Flag(true)))
  {
    hide ChangeByToken, EmailTaken, Invalidate, MoveAddress, AskNewAddress;
  }

  lemma ConfirmEmailMoves(db: DB, now: Time, link: Id, baseOk: bool)
    ensures var b := Settle(db, ConfirmEmailTx(db, now, link, baseOk)).db;
      || b.accounts == db.accounts
      || (Changing(db, now, link).Some?
          && EmailMoved(db.accounts, b.accounts, Changing(db, now, link).value, db.changes[Changing(db, now, link).value].email))
  {
    hide ChangeByToken, EmailMoved, EmailTaken;
    if ConfirmEmailTx(db, now, link, baseOk).Ok? {
      ConfirmEmailDecides(db, now, link, baseOk);
      hide ConfirmEmailTx;
      var x := Changing(db, now, link).value;
      if db.changes[x].stage == AwaitingPrevious {
        assert AskNewAddress(db, x, now).accounts == db.accounts;
      } else {
        MoveAddressMoves(db, x);
        assert Invalidate(MoveAddress(db, x), x, now).accounts == MoveAddress(db, x).accounts;
      }
    }
  }

  lemma DropAccountDrops(db: DB, account: Id)
    ensures var b := DropAccount(db, account);
      && Within(b.accounts, db.accounts) && Within(b.totp, db.totp) && Within(b.passkeys, db.passkeys)
      && Within(b.identities, db.identities) && b.backups <= db.backups && Within(b.deletions, db.deletions)
  {
  }

  lemma DeleteDueDrops(db: DB, now: Time)
    ensures var b := Settle(db, DeleteDueTx(db, now)).db;
      && Within(b.accounts, db.accounts) && Within(b.totp, db.totp) && Within(b.passkeys, db.passkeys)
      && Within(b.identities, db.identities) && b.backups <= db.backups && Within(b.deletions, db.deletions)
  {
    hide NextDue, DropAccount;
    var due := NextDue(db.accounts, db.deletions, db.supply, now);
    if due.Some? {
      var d := Notify(Enqueue(db, ProfileDeleted(due.value, db.deletions[due.value].shared)), due.value, AccountDeleted);
      DropAccountDrops(d, due.value);
      assert d == db.(outbox := d.outbox);
    }
  }

  // Four ways for the accounts to move on that keep addresses unique.
  lemma AccountsMoveOn(a: map<Id, Account>, b: map<Id, Account>, n: Id, m: Id, x: Id, email: string)
    requires AccountsOk(a, n) && n <= m
    requires EmailsKept(a, b) || Within(b, a) || EmailMoved(a, b, x, email)
    ensures AccountsOk(b, m)
  {
  }

  lemma EnlistedKeepsAccounts(a: DB, b: DB, id: Id, account: Id)
    requires AccountsOk(a.accounts, a.supply) && Enlisted(a, b, id, account)
    ensures AccountsOk(b.accounts, b.supply)
  {
    hide DoneKinds;
    assert forall x | x in a.accounts :: a.accounts[x].email != a.signups[id].email;
    hide EmailTaken;
  }

  lemma AccountsKept(cfg: Config, db: DB, clock: Time, call: Call)
    requires Core(cfg, db, clock) && clock <= call.now && AccountsOk(db.accounts, db.supply)
    ensures AccountsOk(Apply(cfg, db, call).db.accounts, Apply(cfg, db, call).db.supply)
  {
    hide Core, AccountsOk, AttemptTx, ConfirmEmailTx, DeleteDueTx, HolderOf, EmailsKept, Within, EmailMoved, Changing, Enlisted;
    EveryActionFramed(cfg, db, call);
    var b := Apply(cfg, db, call).db;
    assert db.supply <= b.supply by { hide Transact; }
    if call.action.Attempt? {
      var Attempt(id, cid, flow, who, proof) := call.action;
      AttemptAccounts(cfg, db, clock, call.now, id, cid, flow, who, proof);
      if SameHolders(db, b) {
        AccountsLater(db.accounts, db.supply, b.supply);
      } else {
        EnlistedKeepsAccounts(db, b, id, HolderOf(b, id));
      }
    } else if call.action.ConfirmEmail? {
      ConfirmEmailMoves(db, call.now, call.action.link, call.action.baseOk);
      if b.accounts == db.accounts {
        AccountsLater(db.accounts, db.supply, b.supply);
      } else {
        var x := Changing(db, call.now, call.action.link).value;
        AccountsMoveOn(db.accounts, b.accounts, db.supply, b.supply, x, db.changes[x].email);
      }
    } else {
      if call.action.DeleteDue? {
        DeleteDueDrops(db, call.now);
      } else {
        ManyKeepEmails(cfg, db, call);
      }
      AccountsMoveOn(db.accounts, b.accounts, db.supply, b.supply, 0, "");
    }
  }

  lemma AccountsLater(a: map<Id, Account>, n: Id, m: Id)
    requires AccountsOk(a, n) && n <= m
    ensures AccountsOk(a, m)
  {
  }

  // ---------- sessions ----------

  /** The row x is new or rotated and holds a token just drawn; every other row is as it was. */
  ghost predicate SessionIssued(a: DB, b: DB, x: Id) {
    && x in b.sessions && b.sessions == a.sessions[x := b.sessions[x]] && a.supply < b.supply
    && b.sessions[x].refresh == Digest(RefreshTag, 0, a.supply)
    && if x in a.sessions then b.sessions[x].account == a.sessions[x].account else a.supply <= x < b.supply
  }

  lemma CreateSessionIssues(db: DB, now: Time, grant: Id, ttl: int)
    requires CreateSessionTx(db, now, grant, ttl).Ok?
    requires SessionsOk(db.sessions, db.supply)
    ensures var b := CreateSessionTx(db, now, grant, ttl).value.db;
      SessionIssued(db, b, db.supply + 1) && db.supply + 1 !in db.sessions
  {
    assert db.supply + 1 !in db.sessions;
    hide ConsumeGrant, ProcByGrant, SessionsOk;
  }

  lemma RefreshIssues(db: DB, now: Time, id: Id, refresh: Id, ttl: int)
    requires RefreshTx(db, now, id, refresh, ttl).Ok?
    ensures SessionIssued(db, RefreshTx(db, now, id, refresh, ttl).value.db, id) && AcceptsRefresh(db, now, id, refresh)
  {
  }

  lemma IssuedKeepsSessions(a: DB, b: DB, x: Id)
    requires SessionsOk(a.sessions, a.supply) && SessionIssued(a, b, x)
    ensures SessionsOk(b.sessions, b.supply)
  {
  }

  lemma ShrunkKeepsSessions(a: map<Id, Session>, b: map<Id, Session>, n: Id, m: Id)
    requires SessionsOk(a, n) && Within(b, a) && n <= m
    ensures SessionsOk(b, m)
  {
  }

  lemma SessionsKept(cfg: Config, db: DB, call: Call)
    requires SessionsOk(db.sessions, db.supply)
    ensures SessionsOk(Apply(cfg, db, call).db.sessions, Apply(cfg, db, call).db.supply)
  {
    EveryActionFramed(cfg, db, call);
    hide SessionsOk, CreateSessionTx, RefreshTx, Within, SessionIssued, AcceptsRefresh;
    var b := Apply(cfg, db, call).db;
    if call.action.CreateSession? && Transact(cfg, db, call.now, call.action).Ok? {
      CreateSessionIssues(db, call.now, call.action.grant, call.action.ttl);
      IssuedKeepsSessions(db, b, db.supply + 1);
    } else if call.action.Refresh? && Transact(cfg, db, call.now, call.action).Ok? {
      RefreshIssues(db, call.now, call.action.session, call.action.refresh, call.action.ttl);
      IssuedKeepsSessions(db, b, call.action.session);
    } else if Drops(call.action) {
      DropsShrink(cfg, db, call);
      hide Transact;
      ShrunkKeepsSessions(db.sessions, b.sessions, db.supply, b.supply);
    } else {
      assert b.sessions == db.sessions;
      hide Transact;
      ShrunkKeepsSessions(db.sessions, db.sessions, db.supply, b.supply);
    }
  }

  // ---------- address changes and password resets ----------

  /** The request of x is new or moved on, under a token just drawn. */
  ghost predicate ChangeIssued(a: DB, b: DB, x: Id) {
    && x < a.supply < b.supply && x in b.changes && b.changes == a.changes[x := b.changes[x]]
    && b.changes[x].token == Digest(EmailChangeTag, 0, a.supply)
  }

  lemma ChangeEmailIssues(cfg: Config, db: DB, now: Time, who: Principal, grant: Id, email: string, baseOk: bool)
    requires ChangeEmailTx(cfg, db, now, who, grant, email, baseOk).Ok? && AccountsOk(db.accounts, db.supply)
    ensures who.Bearer? && ChangeIssued(db, ChangeEmailTx(cfg, db, now, who, grant, email, baseOk).value.db, who.account)
  {
    hide ConsumeGrant;
  }

  lemma AskNewAddressIssues(db: DB, x: Id, now: Time)
    requires x in db.changes && x < db.supply
    ensures ChangeIssued(db, AskNewAddress(db, x, now), x)
  {
  }

  lemma IssuedKeepsChanges(a: DB, b: DB, x: Id)
    requires ChangesOk(a.changes, a.supply) && ChangeIssued(a, b, x)
    ensures ChangesOk(b.changes, b.supply)
  {
  }

  lemma ShrunkKeepsChanges(a: map<Id, EmailChangeRequest>, b: map<Id, EmailChangeRequest>, n: Id, m: Id)
    requires ChangesOk(a, n) && Within(b, a) && n <= m
    ensures ChangesOk(b, m)
  {
  }

  lemma ConfirmEmailKeepsChanges(db: DB, now: Time, link: Id, baseOk: bool)
    requires ChangesOk(db.changes, db.supply)
    ensures var b := Settle(db, ConfirmEmailTx(db, now, link, baseOk)).db; ChangesOk(b.changes, b.supply)
  {
    if ConfirmEmailTx(db, now, link, baseOk).Ok? {
      ConfirmEmailDecides(db, now, link, baseOk);
      hide ConfirmEmailTx, Movable;
      var x := Changing(db, now, link).value;
      hide Changing;
      if db.changes[x].stage == AwaitingPrevious {
        AskNewAddressIssues(db, x, now);
        IssuedKeepsChanges(db, AskNewAddress(db, x, now), x);
      } else {
        var b := Invalidate(MoveAddress(db, x), x, now);
        assert b.changes == db.changes - {x} && b.supply == db.supply;
        hide Invalidate, MoveAddress;
        ShrunkKeepsChanges(db.changes, b.changes, db.supply, b.supply);
      }
    }
  }

  lemma ChangesKept(cfg: Config, db: DB, call: Call)
    requires ChangesOk(db.changes, db.supply) && AccountsOk(db.accounts, db.supply)
    ensures ChangesOk(Apply(cfg, db, call).db.changes, Apply(cfg, db, call).db.supply)
  {
    EveryActionFramed(cfg, db, call);
    hide ChangesOk, AccountsOk, ChangeEmailTx, ConfirmEmailTx, ChangeIssued;
    var b := Apply(cfg, db, call).db;
    if call.action.ChangeEmail? && Transact(cfg, db, call.now, call.action).Ok? {
      var ChangeEmail(who, grant, email, baseOk) := call.action;
      ChangeEmailIssues(cfg, db, call.now, who, grant, email, baseOk);
      IssuedKeepsChanges(db, b, who.account);
    } else if call.action.ConfirmEmail? {
      ConfirmEmailKeepsChanges(db, call.now, call.action.link, call.action.baseOk);
    } else if Drops(call.action) {
      DropsShrink(cfg, db, call);
      hide Transact;
      ShrunkKeepsChanges(db.changes, b.changes, db.supply, b.supply);
    } else {
      assert b.changes == db.changes;
      hide Transact;
      ShrunkKeepsChanges(db.changes, db.changes, db.supply, b.supply);
    }
  }

  lemma StartResetKeepsResets(cfg: Config, db: DB, now: Time, email: string, baseOk: bool)
    requires ResetsOk(db.resets, db.supply) && AccountsOk(db.accounts, db.supply)
    ensures var b := Settle(db, StartPasswordResetTx(cfg, db, now, email, baseOk)).db; ResetsOk(b.resets, b.supply)
  {
    hide AccountByEmail;
  }

  lemma ShrunkKeepsResets(a: map<Id, ResetRequest>, b: map<Id, ResetRequest>, n: Id, m: Id)
    requires ResetsOk(a, n) && Within(b, a) && n <= m
    ensures ResetsOk(b, m)
  {
  }

  lemma ResetsKept(cfg: Config, db: DB, call: Call)
    requires ResetsOk(db.resets, db.supply) && AccountsOk(db.accounts, db.supply)
    ensures ResetsOk(Apply(cfg, db, call).db.resets, Apply(cfg, db, call).db.supply)
  {
    EveryActionFramed(cfg, db, call);
    hide ResetsOk, AccountsOk, StartPasswordResetTx;
    var b := Apply(cfg, db, call).db;
    if call.action.StartPasswordReset? {
      StartResetKeepsResets(cfg, db, call.now, call.action.email, call.action.baseOk);
    } else {
      if Drops(call.action) {
        DropsShrink(cfg, db, call);
      }
      hide Transact;
      ShrunkKeepsResets(db.resets, b.resets, db.supply, b.supply);
    }
  }

  // ---------- authorization requests ----------

  /** Rows went, or some came under a state just drawn. */
  ghost predicate StatesDrawn(a: DB, b: DB) {
    && a.supply <= b.supply
    && (forall o | o in b.oauth && o !in a.oauth :: o.tag == StateTag && o.context == 0 && a.supply <= o.value < b.supply && OneParent(b.oauth[o]))
    && (forall o | o in b.oauth && o in a.oauth :: b.oauth[o] == a.oauth[o])
  }

  lemma CreateOAuthDraws(cfg: Config, d: DB, cid: Id, step: Step, flow: Id, o: OAuthOptions, libraryOk: bool)
    requires IsProvider(step.kind) && OAuthOk(d.oauth, d.supply)
    ensures StatesDrawn(d, Settle(d, CreateOAuth(cfg, d, cid, step, flow, o, libraryOk)).db)
  {
    hide ProviderOf;
  }

  lemma CreateChallengeDraws(cfg: Config, db: DB, now: Time, id: Id, flow: Id, kind: Kind, who: Principal, options: OAuthOptions, code: Id,
                             libraryOk: bool)
    requires OAuthOk(db.oauth, db.supply)
    ensures StatesDrawn(db, Settle(db, CreateChallengeTx(cfg, db, now, id, flow, kind, who, options, code, libraryOk)).db)
  {
    hide PurposePrincipal, Next, CancelPending, Earlier, CreateOAuth;
    if CreateChallengeTx(cfg, db, now, id, flow, kind, who, options, code, libraryOk).Ok? {
      var p := db.procs[id];
      var step := Step(id, kind, Pending, 0, Earlier(now + cfg.challengeTTL, p.expires), None, NoDetail);
      var d := db.(steps := CancelPending(db.steps, id, Some(kind), None)[db.supply := step], supply := db.supply + 1);
      if IsProvider(kind) {
        CreateOAuthDraws(cfg, d, db.supply, step, flow, options, libraryOk);
      }
    }
  }

  lemma PrepareIdentityDraws(cfg: Config, db: DB, now: Time, who: Principal, provider: Provider, redirect: string, libraryOk: bool)
    requires OAuthOk(db.oauth, db.supply)
    ensures StatesDrawn(db, Settle(db, PrepareIdentityTx(cfg, db, now, who, provider, redirect, libraryOk)).db)
  {
  }

  lemma BeginSpends(cfg: Config, db: DB, now: Time, id: Id, cid: Id, flow: Id, who: Principal, kind: Kind, token: ProviderProof,
                    provider: Provider, state: Id)
    ensures StatesDrawn(db, Settle(db, BeginProviderTx(cfg, db, now, id, cid, flow, who, kind, token)).db)
    ensures StatesDrawn(db, Settle(db, BeginLinkTx(cfg, db, now, who, provider, state)).db)
  {
    hide Load, Next;
  }

  lemma DrawnKeepsOAuth(a: DB, b: DB)
    requires OAuthOk(a.oauth, a.supply) && StatesDrawn(a, b)
    ensures OAuthOk(b.oauth, b.supply)
  {
  }

  lemma StatesStay(cfg: Config, db: DB, call: Call)
    requires Drops(call.action) || !WritesOauth(call.action)
    ensures StatesDrawn(db, Apply(cfg, db, call).db)
  {
    hide Transact;
    EveryActionFramed(cfg, db, call);
    if Drops(call.action) {
      DropsShrink(cfg, db, call);
    }
    hide Apply;
  }

  lemma StatesMove(cfg: Config, db: DB, call: Call)
    requires OAuthOk(db.oauth, db.supply)
    ensures StatesDrawn(db, Apply(cfg, db, call).db)
  {
    hide OAuthOk, CreateChallengeTx, BeginProviderTx, BeginLinkTx, PrepareIdentityTx, StatesDrawn;
    match call.action
    case CreateChallenge(id, flow, kind, who, options, code, libraryOk) =>
      CreateChallengeDraws(cfg, db, call.now, id, flow, kind, who, options, code, libraryOk);
    case BeginProvider(id, cid, flow, who, kind, token) =>
      BeginSpends(cfg, db, call.now, id, cid, flow, who, kind, token, GoogleProvider, 0);
    case BeginLink(who, provider, state) =>
      BeginSpends(cfg, db, call.now, 0, 0, 0, who, Google, IdToken(false), provider, state);
    case PrepareIdentity(who, provider, redirect, libraryOk) =>
      PrepareIdentityDraws(cfg, db, call.now, who, provider, redirect, libraryOk);
    case _ =>
      StatesStay(cfg, db, call);
      hide Transact;
  }

  // ---------- factors and deletion requests ----------

  /** An attempt may spend a code: no enrolment comes or goes, no moving factor goes back, no backup code appears. */
  ghost predicate FactorsSpent(a: DB, b: DB) {
    && b.totp.Keys == a.totp.Keys && b.backups <= a.backups
    && (forall x | x in a.totp :: b.totp[x].key == a.totp[x].key && b.totp[x].last >= a.totp[x].last)
  }

  lemma VerifySpends(cfg: Config, db: DB, now: Time, id: Id, p: Process, cid: Id, step: Step, proof: Proof)
    requires id in db.procs && Verify(cfg, db, now, id, p, cid, step, proof).Ok?
    ensures FactorsSpent(db, Verify(cfg, db, now, id, p, cid, step, proof).value.db)
  {
    hide FactorsSpent, VerifyRegistration, VerifySetup, VerifyPassword, VerifyPasskey, VerifyTotp, VerifyBackup;
    var d := Verify(cfg, db, now, id, p, cid, step, proof).value.db;
    match proof
    case RegistrationProof(raw) => RegistrationSpendsNothing(cfg, db, id, p, raw); NothingSpent(db, d);
    case SetupProof(password) => SetupSpendsNothing(db, id, p, password); NothingSpent(db, d);
    case PasswordProof(login, password) => PasswordSpendsNothing(cfg, db, id, p, login, password); NothingSpent(db, d);
    case PasskeyProof(assertion) => PasskeySpendsNothing(cfg, db, id, p, assertion); NothingSpent(db, d);
    case TotpProof(digits) => TotpSpends(cfg, db, now, id, p, digits);
    case BackupProof(code) => BackupSpends(db, id, p, code); OneSpent(db, d, p.account.value, code);
    case EmailProof(_) => NothingSpent(db, db);
    case OtherProof(_) =>
  }

  lemma NothingSpent(a: DB, b: DB)
    requires b.totp == a.totp && b.backups == a.backups
    ensures FactorsSpent(a, b)
  {
  }

  lemma OneSpent(a: DB, b: DB, x: Id, code: Id)
    requires b.totp == a.totp && b.backups == a.backups - {BackupKey(x, Digest(BackupTag, x, code))}
    ensures FactorsSpent(a, b)
  {
  }

  lemma TotpSpends(cfg: Config, db: DB, now: Time, id: Id, p: Process, digits: string)
    requires id in db.procs
    ensures var r := VerifyTotp(cfg, db, now, id, p, digits); r.Ok? ==> FactorsSpent(db, r.value.db)
  {
    hide TotpStep;
  }

  lemma BackupSpends(db: DB, id: Id, p: Process, code: Id)
    requires id in db.procs && VerifyBackup(db, id, p, code).Ok?
    ensures p.account.Some?
    ensures var d := VerifyBackup(db, id, p, code).value.db;
      d.totp == db.totp && d.backups == db.backups - {BackupKey(p.account.value, Digest(BackupTag, p.account.value, code))}
  {
  }

  lemma RegistrationSpendsNothing(cfg: Config, db: DB, id: Id, p: Process, raw: string)
    requires id in db.procs && VerifyRegistration(cfg, db, id, p, raw).Ok?
    ensures var d := VerifyRegistration(cfg, db, id, p, raw).value.db; d.totp == db.totp && d.backups == db.backups
  {
  }

  lemma SetupSpendsNothing(db: DB, id: Id, p: Process, password: Store.Password)
    requires id in db.procs && VerifySetup(db, id, p, password).Ok?
    ensures var d := VerifySetup(db, id, p, password).value.db; d.totp == db.totp && d.backups == db.backups
  {
  }

  lemma PasswordSpendsNothing(cfg: Config, db: DB, id: Id, p: Process, login: string, password: Store.Password)
    requires id in db.procs && VerifyPassword(cfg, db, id, p, login, password).Ok?
    ensures var d := VerifyPassword(cfg, db, id, p, login, password).value.db; d.totp == db.totp && d.backups == db.backups
  {
    hide PasswordAccount, PasswordFits;
  }

  lemma PasskeySpendsNothing(cfg: Config, db: DB, id: Id, p: Process, assertion: Assertion)
    requires id in db.procs && VerifyPasskey(cfg, db, id, p, assertion).Ok?
    ensures var d := VerifyPasskey(cfg, db, id, p, assertion).value.db; d.totp == db.totp && d.backups == db.backups
  {
    hide HasPasskey;
  }

  lemma ProceedKeepsFactors(cfg: Config, v: DB, now: Time, id: Id, cid: Id, purpose: Purpose, kind: Kind)
    requires id in v.procs && cid in v.steps
    ensures var b := Settle(v, Proceed(cfg, v, now, id, cid, purpose, kind)).db;
      b.totp == v.totp && b.backups == v.backups
  {
    FrameProceed(cfg, v, now, id, cid, purpose, kind);
    hide Proceed;
  }

  lemma JudgeSpends(cfg: Config, db: DB, now: Time, id: Id, cid: Id, verdict: Result<Proved>)
    requires id in db.procs && cid in db.steps && Usable(db, id, verdict)
    requires verdict.Ok? ==> FactorsSpent(db, verdict.value.db)
    ensures FactorsSpent(db, Settle(db, Judge(cfg, db, now, id, cid, verdict)).db)
  {
    hide Proceed, FailureAnswer;
    if verdict.Ok? {
      ProceedKeepsFactors(cfg, verdict.value.db, now, id, cid, db.procs[id].purpose, db.steps[cid].kind);
    }
  }

  lemma AttemptSpends(cfg: Config, db: DB, now: Time, id: Id, cid: Id, flow: Id, who: Principal, proof: Proof)
    ensures FactorsSpent(db, Settle(db, AttemptTx(cfg, db, now, id, cid, flow, who, proof)).db)
  {
    if AttemptTx(cfg, db, now, id, cid, flow, who, proof).Ok? {
      AttemptAdmits(cfg, db, now, id, cid, flow, who, proof);
      var verdict := Verify(cfg, db, now, id, db.procs[id], cid, db.steps[cid], proof);
      if verdict.Ok? {
        VerifySpends(cfg, db, now, id, db.procs[id], cid, db.steps[cid], proof);
      }
      JudgeSpends(cfg, db, now, id, cid, verdict);
      hide *;
    }
  }

  lemma BackupsReplaced(db: DB, account: Id)
    requires BackupsOk(db.backups, db.supply)
    ensures var b := ReplaceBackupCodes(db, account).db; BackupsOk(b.backups, b.supply)
  {
  }

  lemma ConfirmTotpFactors(cfg: Config, db: DB, now: Time, who: Principal, digits: string)
    requires AccountsOk(db.accounts, db.supply) && Numbered(db.totp, db.supply) && BackupsOk(db.backups, db.supply)
    ensures var b := Settle(db, ConfirmTotpTx(cfg, db, now, who, digits)).db;
      Numbered(b.totp, b.supply) && BackupsOk(b.backups, b.supply)
  {
    hide TotpStep, DropSessions, ReplaceBackupCodes, Invalidate;
    if ConfirmTotpTx(cfg, db, now, who, digits).Ok? {
      var a := who.account;
      var key := db.activations[a].key;
      var used := TotpStep(cfg.mac, key, digits, now, -1);
      var c := db.(totp := db.totp[a := TotpFactor(key, used.value)], activations := db.activations - {a});
      var d := Invalidate(c, a, now);
      var e := DropSessions(d, SessionsOf(d, a) - {who.session});
      EnrolmentKept(c, a, now, SessionsOf(d, a) - {who.session});
      BackupsReplaced(e, a);
      ReplacedCodesOnly(e, a);
    }
  }

  lemma EnrolmentKept(c: DB, a: Id, now: Time, gone: set<Id>)
    ensures var e := DropSessions(Invalidate(c, a, now), gone);
      e.totp == c.totp && e.backups == c.backups && e.supply == c.supply
  {
  }

  lemma ReplacedCodesOnly(db: DB, account: Id)
    ensures var b := ReplaceBackupCodes(db, account).db;
      b == db.(backups := b.backups, supply := b.supply) && db.supply < b.supply
  {
  }

  lemma RotateKeepsBackups(db: DB, now: Time, who: Principal, grant: Id)
    requires BackupsOk(db.backups, db.supply)
    ensures var b := Settle(db, RotateBackupCodesTx(db, now, who, grant)).db; BackupsOk(b.backups, b.supply)
  {
    hide ConsumeGrant, ReplaceBackupCodes, BackupsOk;
    if RotateBackupCodesTx(db, now, who, grant).Ok? {
      var spent := ConsumeGrant(db, now, grant, BackupCodesRotation, who).value;
      BackupsReplaced(spent.db, spent.account);
    }
  }

  lemma TotpKept(cfg: Config, db: DB, call: Call)
    requires AccountsOk(db.accounts, db.supply) && Numbered(db.totp, db.supply) && BackupsOk(db.backups, db.supply)
    ensures var b := Apply(cfg, db, call).db; Numbered(b.totp, b.supply) && BackupsOk(b.backups, b.supply)
  {
    hide *;
    Dispatched(cfg, db, call);
    OtherFactorsKept(cfg, db, call);
    match call.action
    case Attempt(id, cid, flow, who, proof) => AttemptSpends(cfg, db, call.now, id, cid, flow, who, proof);
    case ConfirmTotp(who, digits) => ConfirmTotpFactors(cfg, db, call.now, who, digits);
    case RotateBackupCodes(who, grant) => RotateKeepsBackups(db, call.now, who, grant);
    case DeleteTotp(who, grant) => DeleteTotpWithin(db, call.now, who, grant);
    case DeleteDue => DeleteDueDrops(db, call.now);
    case _ =>
  }

  lemma DeleteTotpWithin(db: DB, now: Time, who: Principal, grant: Id)
    ensures Within(Settle(db, DeleteTotpTx(db, now, who, grant)).db.totp, db.totp)
  {
    hide ConsumeGrant, InvalidateRow;
  }

  lemma OtherFactorsKept(cfg: Config, db: DB, call: Call)
    requires Numbered(db.totp, db.supply) && BackupsOk(db.backups, db.supply)
    ensures var a, b := call.action, Apply(cfg, db, call).db;
      && ((!a.Attempt? && !a.ConfirmTotp? && !a.DeleteTotp? && !a.DeleteDue?) || FactorsSpent(db, b) || Within(b.totp, db.totp)
          ==> Numbered(b.totp, b.supply))
      && ((!a.Attempt? && !a.ConfirmTotp? && !a.RotateBackupCodes? && !a.DeleteDue?) || FactorsSpent(db, b) || b.backups <= db.backups
          ==> BackupsOk(b.backups, b.supply))
  {
    hide Apply;
    EveryActionFramed(cfg, db, call);
  }

  lemma FinishLinkKeepsIdentities(db: DB, now: Time, who: Principal, grant: Id, provider: Provider, subject: string)
    requires AccountsOk(db.accounts, db.supply) && IdentitiesOk(db.identities, db.supply)
    ensures var b := Settle(db, FinishLinkTx(db, now, who, grant, provider, subject)).db; IdentitiesOk(b.identities, b.supply)
  {
    hide ConsumeGrant, InvalidateRow;
  }

  lemma RegisterKeepsPasskeys(cfg: Config, db: DB, now: Time, who: Principal, request: Id, name: string, credential: Option<Id>)
    requires AccountsOk(db.accounts, db.supply) && PasskeysOk(db.passkeys, db.supply)
    ensures var b := Settle(db, RegisterPasskeyTx(cfg, db, now, who, request, name, credential)).db; PasskeysOk(b.passkeys, b.supply)
  {
    hide InvalidateRow;
  }

  lemma IdentitiesShrink(a: map<IdentityKey, string>, b: map<IdentityKey, string>, n: Id, m: Id)
    requires IdentitiesOk(a, n) && Within(b, a) && n <= m
    ensures IdentitiesOk(b, m)
  {
  }

  lemma PasskeysShrink(a: map<Id, PasskeyRow>, b: map<Id, PasskeyRow>, n: Id, m: Id)
    requires PasskeysOk(a, n) && Within(b, a) && n <= m
    ensures PasskeysOk(b, m)
  {
  }

  lemma UnlinkDrops(db: DB, now: Time, who: Principal, grant: Id, provider: Provider)
    ensures Within(Settle(db, UnlinkIdentityTx(db, now, who, grant, provider)).db.identities, db.identities)
  {
    hide ConsumeGrant, HasOtherCredential;
  }

  lemma DeletePasskeyDrops(db: DB, now: Time, who: Principal, grant: Id, passkey: Id)
    ensures Within(Settle(db, DeletePasskeyTx(db, now, who, grant, passkey)).db.passkeys, db.passkeys)
  {
    hide ConsumeGrant, HasOtherCredential;
  }

  lemma IdentitiesKept(cfg: Config, db: DB, call: Call)
    requires AccountsOk(db.accounts, db.supply) && IdentitiesOk(db.identities, db.supply)
    ensures IdentitiesOk(Apply(cfg, db, call).db.identities, Apply(cfg, db, call).db.supply)
  {
    EveryActionFramed(cfg, db, call);
    hide AccountsOk, IdentitiesOk, Within, FinishLinkTx, UnlinkIdentityTx, DeleteDueTx;
    var b := Apply(cfg, db, call).db;
    if call.action.FinishLink? {
      FinishLinkKeepsIdentities(db, call.now, call.action.who, call.action.grant, call.action.provider, call.action.subject);
    } else {
      if call.action.UnlinkIdentity? {
        UnlinkDrops(db, call.now, call.action.who, call.action.grant, call.action.provider);
      } else if call.action.DeleteDue? {
        DeleteDueDrops(db, call.now);
      } else {
        hide Transact;
        WithinItself(db.identities);
      }
      IdentitiesShrink(db.identities, b.identities, db.supply, b.supply);
    }
  }

  lemma PasskeysKept(cfg: Config, db: DB, call: Call)
    requires AccountsOk(db.accounts, db.supply) && PasskeysOk(db.passkeys, db.supply)
    ensures PasskeysOk(Apply(cfg, db, call).db.passkeys, Apply(cfg, db, call).db.supply)
  {
    EveryActionFramed(cfg, db, call);
    hide AccountsOk, PasskeysOk, Within, RegisterPasskeyTx, DeletePasskeyTx, DeleteDueTx;
    var b := Apply(cfg, db, call).db;
    if call.action.RegisterPasskey? {
      var RegisterPasskey(who, request, name, credential) := call.action;
      RegisterKeepsPasskeys(cfg, db, call.now, who, request, name, credential);
    } else {
      if call.action.DeletePasskey? {
        DeletePasskeyDrops(db, call.now, call.action.who, call.action.grant, call.action.passkey);
      } else if call.action.DeleteDue? {
        DeleteDueDrops(db, call.now);
      } else {
        hide Transact;
        WithinItself(db.passkeys);
      }
      PasskeysShrink(db.passkeys, b.passkeys, db.supply, b.supply);
    }
  }

  lemma RequestDeletionNumbered(db: DB, now: Time, who: Principal, grant: Id, shared: bool, delay: int)
    requires AccountsOk(db.accounts, db.supply) && Numbered(db.deletions, db.supply)
    ensures Numbered(Settle(db, RequestDeletionTx(db, now, who, grant, shared, delay)).db.deletions, db.supply)
  {
    hide ConsumeGrant;
    if RequestDeletionTx(db, now, who, grant, shared, delay).Ok? {
      assert who.account in db.accounts;
    }
    hide AccountsOk;
  }

  lemma PatchDeletionNumbered(db: DB, now: Time, who: Principal, shared: bool)
    requires Numbered(db.deletions, db.supply)
    ensures Numbered(Settle(db, PatchDeletionTx(db, now, who, shared)).db.deletions, db.supply)
    ensures Numbered(Settle(db, CancelDeletionTx(db, now, who)).db.deletions, db.supply)
  {
    hide RecoveryPrincipal;
  }

  lemma DeletionsKept(cfg: Config, db: DB, call: Call)
    requires AccountsOk(db.accounts, db.supply) && Numbered(db.deletions, db.supply)
    ensures Numbered(Apply(cfg, db, call).db.deletions, Apply(cfg, db, call).db.supply)
  {
    hide *;
    Dispatched(cfg, db, call);
    OtherDeletionsKept(cfg, db, call);
    match call.action
    case RequestDeletion(who, grant, shared, delay) => RequestDeletionNumbered(db, call.now, who, grant, shared, delay);
    case PatchDeletion(who, shared) => PatchDeletionNumbered(db, call.now, who, shared);
    case CancelDeletion(who) => PatchDeletionNumbered(db, call.now, who, false);
    case DeleteDue => DeleteDueDrops(db, call.now);
    case _ =>
  }

  lemma OtherDeletionsKept(cfg: Config, db: DB, call: Call)
    requires Numbered(db.deletions, db.supply)
    ensures var a, b := call.action, Apply(cfg, db, call).db;
      && (Numbered(b.deletions, db.supply) ==> Numbered(b.deletions, b.supply))
      && ((!a.RequestDeletion? && !a.PatchDeletion? && !a.CancelDeletion? && !a.DeleteDue?) || Within(b.deletions, db.deletions)
          ==> Numbered(b.deletions, b.supply))
  {
    hide Apply;
    EveryActionFramed(cfg, db, call);
  }

  // ---------- processes: flow and grant tokens ----------

  lemma CalmerKeepsProcKeys(a: map<Id, Process>, b: map<Id, Process>, n: Id, m: Id)
    requires ProcKeysOk(a, n) && QuietProcs(a, b) && n <= m
    ensures ProcKeysOk(b, m)
  {
    forall p | p in b
      ensures p < m && IsDrawn(b[p].flow, FlowTag, m) && (b[p].grant.Some? ==> IsDrawn(b[p].grant.value.hash, GrantTag, m))
    {
      assert Calmer(a[p], b[p]);
    }
    forall p, q | p in b && q in b && (b[p].flow == b[q].flow || SameGrant(b[p], b[q]))
      ensures p == q
    {
      assert Calmer(a[p], b[p]) && Calmer(a[q], b[q]);
    }
  }

  lemma QuietKeepsSteps(a: DB, b: DB)
    requires Quiet(a, b) && StepKeysOk(a.steps, a.supply)
    ensures StepKeysOk(b.steps, b.supply)
  {
    hide QuietProcs, QuietTotp, QuietSignups;
  }

  /** A process kept its flow token, and its grant unless a new one was drawn. */
  ghost predicate GrantDrawn(a: DB, b: DB, id: Id) {
    && a.supply <= b.supply && id in b.procs && b.procs == a.procs[id := b.procs[id]]
    && (if id in a.procs then b.procs[id].flow == a.procs[id].flow
        else a.supply <= id < b.supply && b.procs[id].flow.value >= a.supply && IsDrawn(b.procs[id].flow, FlowTag, b.supply))
    && (b.procs[id].grant.Some? ==>
          || (id in a.procs && b.procs[id].grant == a.procs[id].grant)
          || (b.procs[id].grant.value.hash.value >= a.supply && IsDrawn(b.procs[id].grant.value.hash, GrantTag, b.supply)))
  }

  lemma DrawnKeepsProcKeys(a: DB, b: DB, id: Id)
    requires ProcKeysOk(a.procs, a.supply) && GrantDrawn(a, b, id)
    ensures ProcKeysOk(b.procs, b.supply)
  {
  }

  // One process moves, and it draws its grant when it completes.
  lemma FinishDraws(cfg: Config, a: DB, d: DB, id: Id, account: Id, now: Time)
    requires id in d.procs && GrantDrawn(a, d, id)
    ensures GrantDrawn(a, Finish(cfg, d, id, account, now), id)
  {
  }

  lemma OpenedDraws(cfg: Config, db: DB, now: Time, purpose: Purpose, who: Principal)
    requires ProcKeysOk(db.procs, db.supply)
    ensures GrantDrawn(db, Opened(cfg, db, now, purpose, who), db.supply)
  {
    assert db.supply !in db.procs;
    hide ProcKeysOk;
  }

  /** What Start makes: a pending process, or one completed on earlier evidence. */
  lemma StartDecides(cfg: Config, db: DB, now: Time, name: string, who: Principal)
    requires StartTx(cfg, db, now, name, who).Ok?
    ensures ParsePurpose(name).Ok?
    ensures var purpose := ParsePurpose(name).value;
      var d := Opened(cfg, db, now, purpose, who);
      StartTx(cfg, db, now, name, who).value.db
      == if Sensitive(purpose) && who.Bearer? && Reusable(d, who.account, who.session, now - cfg.reuseTTL)
         then Finish(cfg, d, db.supply, who.account, now) else d
  {
    hide ParsePurpose, PurposePrincipal, Next, Reusable, Opened;
  }

  lemma StartDraws(cfg: Config, db: DB, now: Time, name: string, who: Principal)
    requires StartTx(cfg, db, now, name, who).Ok? && ProcKeysOk(db.procs, db.supply)
    ensures GrantDrawn(db, StartTx(cfg, db, now, name, who).value.db, db.supply)
  {
    StartDecides(cfg, db, now, name, who);
    hide StartTx;
    var purpose := ParsePurpose(name).value;
    hide ParsePurpose;
    var d := Opened(cfg, db, now, purpose, who);
    OpenedDraws(cfg, db, now, purpose, who);
    if who.Bearer? {
      FinishDraws(cfg, db, d, db.supply, who.account, now);
    }
    hide Reusable, GrantDrawn, ProcKeysOk, NewProcess, Finish;
  }

  lemma AfterFactorDraws(cfg: Config, a: DB, d: DB, now: Time, id: Id, cid: Id)
    requires id in a.procs && id in d.procs && GrantDrawn(a, d, id)
    ensures AfterFactor(cfg, d, now, id, cid).Ok? ==> GrantDrawn(a, AfterFactor(cfg, d, now, id, cid).value.db, id)
  {
    if d.procs[id].account.Some? {
      FinishDraws(cfg, a, d, id, d.procs[id].account.value, now);
    }
    hide GrantDrawn, Next, Finish;
  }

  lemma FailDraws(a: DB, d: DB, id: Id)
    requires id in a.procs && id in d.procs && GrantDrawn(a, d, id)
    ensures GrantDrawn(a, FailRegistration(d, id), id)
  {
    hide CancelPending;
  }

  lemma EnlistDraws(cfg: Config, a: DB, d: DB, id: Id, now: Time)
    requires id in a.procs && id in d.procs && id in d.signups && GrantDrawn(a, d, id)
    ensures GrantDrawn(a, Enlist(cfg, d, id, now), id)
  {
    var r := Register(d, id);
    assert r.procs == d.procs && d.supply <= r.supply;
    hide Register;
    assert GrantDrawn(a, r, id);
    FinishDraws(cfg, a, r, id, d.supply, now);
    hide GrantDrawn, Finish;
  }

  lemma AfterSignUpDraws(cfg: Config, a: DB, d: DB, now: Time, id: Id, cid: Id, kind: Kind)
    requires id in a.procs && id in d.procs && GrantDrawn(a, d, id)
    ensures AfterSignUpStep(cfg, d, now, id, cid, kind).Ok? ==> GrantDrawn(a, AfterSignUpStep(cfg, d, now, id, cid, kind).value.db, id)
  {
    FailDraws(a, d, id);
    if id in d.signups {
      EnlistDraws(cfg, a, d, id, now);
    }
    hide GrantDrawn, FailRegistration, Enlist, AddressTaken, Next;
  }

  lemma ProceedDraws(cfg: Config, a: DB, v: DB, now: Time, id: Id, cid: Id, purpose: Purpose, kind: Kind)
    requires id in a.procs && id in v.procs && cid in v.steps && GrantDrawn(a, v, id)
    ensures Proceed(cfg, v, now, id, cid, purpose, kind).Ok? ==> GrantDrawn(a, Proceed(cfg, v, now, id, cid, purpose, kind).value.db, id)
  {
    var d := AcceptStep(v, id, cid, now);
    assert d.procs == v.procs && d.supply == v.supply;
    hide AcceptStep;
    assert GrantDrawn(a, d, id);
    AfterFactorDraws(cfg, a, d, now, id, cid);
    AfterSignUpDraws(cfg, a, d, now, id, cid, kind);
    hide GrantDrawn, AfterFactor, AfterSignUpStep;
  }

  lemma BindDraws(db: DB, id: Id)
    requires id in db.procs
    ensures forall a :: GrantDrawn(db, Bind(db, id, a), id)
  {
  }

  lemma SameProcsDraw(db: DB, d: DB, id: Id)
    requires id in db.procs && d.procs == db.procs && db.supply <= d.supply
    ensures GrantDrawn(db, d, id)
  {
  }

  lemma VerifyDraws(cfg: Config, db: DB, now: Time, id: Id, p: Process, cid: Id, step: Step, proof: Proof)
    requires id in db.procs && Verify(cfg, db, now, id, p, cid, step, proof).Ok?
    ensures GrantDrawn(db, Verify(cfg, db, now, id, p, cid, step, proof).value.db, id)
  {
    hide GrantDrawn, VerifyRegistration, VerifySetup, VerifyPassword, VerifyPasskey, VerifyTotp, VerifyBackup;
    match proof
    case RegistrationProof(raw) => RegistrationDraws(cfg, db, id, p, raw);
    case SetupProof(password) => SetupDraws(db, id, p, password);
    case PasswordProof(login, password) => BindingProofsDraw(cfg, db, id, p, login, password, Unparsable);
    case PasskeyProof(assertion) => BindingProofsDraw(cfg, db, id, p, "", [], assertion);
    case TotpProof(digits) => TotpDraws(cfg, db, now, id, p, digits);
    case BackupProof(code) => BackupDraws(db, id, p, code);
    case EmailProof(_) => SameProcsDraw(db, db, id);
    case OtherProof(_) =>
  }

  lemma RegistrationDraws(cfg: Config, db: DB, id: Id, p: Process, raw: string)
    requires id in db.procs
    ensures var r := VerifyRegistration(cfg, db, id, p, raw); r.Ok? ==> GrantDrawn(db, r.value.db, id)
  {
  }

  lemma SetupDraws(db: DB, id: Id, p: Process, password: Store.Password)
    requires id in db.procs
    ensures var r := VerifySetup(db, id, p, password); r.Ok? ==> GrantDrawn(db, r.value.db, id)
  {
    hide AcceptablePassword;
  }

  lemma TotpDraws(cfg: Config, db: DB, now: Time, id: Id, p: Process, digits: string)
    requires id in db.procs
    ensures var r := VerifyTotp(cfg, db, now, id, p, digits); r.Ok? ==> GrantDrawn(db, r.value.db, id)
  {
    hide TotpStep;
  }

  lemma BackupDraws(db: DB, id: Id, p: Process, code: Id)
    requires id in db.procs
    ensures var r := VerifyBackup(db, id, p, code); r.Ok? ==> GrantDrawn(db, r.value.db, id)
  {
  }

  lemma BindingProofsDraw(cfg: Config, db: DB, id: Id, p: Process, login: string, password: Store.Password, assertion: Assertion)
    requires id in db.procs
    ensures var r := VerifyPassword(cfg, db, id, p, login, password); r.Ok? ==> GrantDrawn(db, r.value.db, id)
    ensures var r := VerifyPasskey(cfg, db, id, p, assertion); r.Ok? ==> GrantDrawn(db, r.value.db, id)
  {
    hide GrantDrawn, PasswordAccount, PasswordFits, HasPasskey, Bind;
    BindDraws(db, id);
  }

  lemma CountDraws(cfg: Config, db: DB, id: Id, cid: Id)
    requires id in db.procs && cid in db.steps
    ensures GrantDrawn(db, CountFailure(cfg, db, id, cid), id)
  {
  }

  lemma AttemptDraws(cfg: Config, db: DB, now: Time, id: Id, cid: Id, flow: Id, who: Principal, proof: Proof)
    requires AttemptTx(cfg, db, now, id, cid, flow, who, proof).Ok?
    ensures GrantDrawn(db, AttemptTx(cfg, db, now, id, cid, flow, who, proof).value.db, id)
  {
    AttemptAdmits(cfg, db, now, id, cid, flow, who, proof);
    hide Next, AttemptTx, GrantDrawn;
    var verdict := Verify(cfg, db, now, id, db.procs[id], cid, db.steps[cid], proof);
    if verdict.Ok? {
      VerifyDraws(cfg, db, now, id, db.procs[id], cid, db.steps[cid], proof);
      ProceedDraws(cfg, db, verdict.value.db, now, id, cid, db.procs[id].purpose, db.steps[cid].kind);
      hide Verify, Proceed;
    } else {
      CountDraws(cfg, db, id, cid);
      hide Verify, CountFailure, FailureAnswer;
    }
  }

  lemma FinishProviderDraws(cfg: Config, db: DB, now: Time, id: Id, cid: Id, flow: Id, who: Principal, kind: Kind, subject: string)
    requires FinishProviderTx(cfg, db, now, id, cid, flow, who, kind, subject).Ok?
    ensures GrantDrawn(db, FinishProviderTx(cfg, db, now, id, cid, flow, who, kind, subject).value.db, id)
  {
    FinishAdmits(cfg, db, now, id, cid, flow, who, kind, subject);
    hide Next, FinishProviderTx;
    var owner := IdentityOwner(db.identities, db.supply, ProviderOf(kind), subject).value;
    hide IdentityOwner;
    var d := AcceptStep(Bind(db, id, owner), id, cid, now);
    assert d.procs == db.procs[id := d.procs[id]] && d.supply == db.supply && GrantDrawn(db, d, id);
    hide GrantDrawn, AcceptStep, Bind;
    AfterFactorDraws(cfg, db, d, now, id, cid);
    hide AfterFactor;
  }
}
