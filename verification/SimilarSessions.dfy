/** Sessions, passwords, links and cleanup: dead rows make no difference. */
module SimilarSessions {
  import opened Base
  import opened Secrets
  import opened Store
  import opened Answers
  import opened Processes
  import opened Challenges
  import opened Accounts
  import opened Totps
  import opened Sessions
  import opened Mails
  import opened CredentialOps
  import opened Cleanups
  import opened Invariant
  import opened QuietActions
  import opened KeyActions
  import opened Reachability
  import opened Trimming
  import opened Links
  import opened Similarity
  import opened SimilarAccounts

  lemma SameSessionsOf(cfg: Config, a: DB, b: DB, now: Time, account: Id)
    requires Trim(cfg, a, b, now)
    ensures forall s | s in b.sessions :: s in SessionsOf(a, account) <==> s in SessionsOf(b, account)
  {
    hide TrimRequests, TrimProcs, TrimSteps, TrimSignups, SameShared;
  }

  lemma StoreAlike(a: DB, b: DB, account: Id, password: Store.Password)
    requires SameShared(a, b) && account in a.accounts
    ensures var c, d := StorePassword(a, account, password), StorePassword(b, account, password);
      a.supply <= c.supply && c == WithShared(a, c) && d == WithShared(b, c) && account in c.accounts && account in d.accounts
  {
  }

  lemma NotifySimilar(cfg: Config, a: DB, b: DB, now: Time, account: Id, template: Template)
    requires Trim(cfg, a, b, now) && account in a.accounts
    ensures account in b.accounts && Trim(cfg, Notify(a, account, template), Notify(b, account, template), now)
  {
    hide Trim;
    TrimShares(cfg, a, b, now);
    TrimSharedChange(cfg, a, b, Notify(a, account, template), Notify(b, account, template), now);
  }

  lemma ReplacePasswordSimilar(cfg: Config, a: DB, b: DB, now: Time, account: Id, password: Store.Password, keep: set<Id>)
    requires Trim(cfg, a, b, now) && account in a.accounts
    ensures account in b.accounts
    ensures Similar(cfg, ReplacePassword(a, now, account, password, keep), ReplacePassword(b, now, account, password, keep), now)
  {
    hide Trim, StorePassword, Notify, DropSessions, SessionsOf;
    TrimShares(cfg, a, b, now);
    StoreAlike(a, b, account, password);
    var c, d := StorePassword(a, account, password), StorePassword(b, account, password);
    ChangeAndInvalidate(cfg, a, b, c, d, account, now);
    hide WithShared, SameShared;
    var e, f := Invalidate(c, account, now), Invalidate(d, account, now);
    assert account in e.accounts && account in f.accounts;
    hide Invalidate;
    NotifySimilar(cfg, e, f, now, account, PasswordChanged);
    var g, h := Notify(e, account, PasswordChanged), Notify(f, account, PasswordChanged);
    SameSessionsOf(cfg, g, h, now, account);
    TrimDropSessions(cfg, g, h, SessionsOf(g, account) - keep, SessionsOf(h, account) - keep, now);
  }

  lemma ChangePasswordSimilar(cfg: Config, a: DB, b: DB, now: Time, account: Id, session: Id, existing: PasswordHash, password: Store.Password)
    requires Trim(cfg, a, b, now) && account in a.accounts
    ensures account in b.accounts
    ensures Similar(cfg, ChangePassword(cfg, a, now, account, session, existing, password),
                    ChangePassword(cfg, b, now, account, session, existing, password), now)
  {
    hide Trim, ReplacePassword;
    ReplacePasswordSimilar(cfg, a, b, now, account, password, {session});
  }

  lemma SetPasswordSimilar(cfg: Config, a: DB, b: DB, now: Time, who: Principal, grant: Id, password: Store.Password)
    requires Pair(cfg, a, b, now)
    ensures Similar(cfg, SetPasswordTx(cfg, a, now, who, grant, password), SetPasswordTx(cfg, b, now, who, grant, password), now)
  {
    hide ChangePassword, ReplacePassword, ConsumeGrant, Trim, Pair, Spendable, HoldsGrant;
    PairView(cfg, a, b, now, who);
    if who.Bearer? && FullPrincipal(a, now, who) {
      var existing := a.accounts[who.account].password;
      if existing.None? {
        ReplacePasswordSimilar(cfg, a, b, now, who.account, password, {who.session});
      } else {
        SpendSimilar(cfg, a, b, now, grant, PasswordChange, who);
        var r, t := ConsumeGrant(a, now, grant, PasswordChange, who), ConsumeGrant(b, now, grant, PasswordChange, who);
        if r.Ok? {
          ChangePasswordSimilar(cfg, r.value.db, t.value.db, now, who.account, who.session, existing.value, password);
        }
      }
    }
  }

  // ---------- links ----------

  lemma SameResetHolder(cfg: Config, a: DB, b: DB, now: Time, token: Digest)
    requires Trim(cfg, a, b, now) && ResetsOk(a.resets, a.supply)
    ensures var p, q := ResetByToken(a.resets, a.supply, token), ResetByToken(b.resets, b.supply, token);
      && (p.Some? && p.value in b.resets ==> q == p && b.resets[p.value] == a.resets[p.value])
      && (p.None? ==> q.None?) && (p.Some? && p.value !in b.resets ==> q.None? && a.resets[p.value].expires < now)
  {
    hide TrimFlows, TrimOAuth, TrimChanges, TrimActivations, TrimPasskeyRequests;
  }

  lemma ConfirmResetSimilar(cfg: Config, a: DB, b: DB, now: Time, link: Id, password: Store.Password)
    requires Pair(cfg, a, b, now)
    ensures Similar(cfg, ConfirmPasswordResetTx(a, now, link, password), ConfirmPasswordResetTx(b, now, link, password), now)
  {
    hide ReplacePassword, ResetByToken, Trim, Core, AccountsOk, SessionsOk, ResetsOk, ProcKeysOk, StepKeysOk, OAuthOk, ChangesOk,
      PasskeysOk, IdentitiesOk, BackupsOk, Numbered;
    var token := Digest(ResetTag, 0, link);
    SameResetHolder(cfg, a, b, now, token);
    TrimShares(cfg, a, b, now);
    var found := ResetByToken(a.resets, a.supply, token);
    if found.Some? && found.value in b.resets && found.value in a.accounts {
      TrimResetRow(cfg, a, b, now, found.value, ResetRequest(token, 0));
      ReplacePasswordSimilar(cfg, a.(resets := a.resets - {found.value}), b.(resets := b.resets - {found.value}), now, found.value, password, {});
    }
  }

  lemma StartResetSimilar(cfg: Config, a: DB, b: DB, now: Time, email: string, baseOk: bool)
    requires Pair(cfg, a, b, now)
    ensures Similar(cfg, StartPasswordResetTx(cfg, a, now, email, baseOk), StartPasswordResetTx(cfg, b, now, email, baseOk), now)
  {
    hide AccountByEmail, Trim, Inv;
    TrimShares(cfg, a, b, now);
    var found := AccountByEmail(a.accounts, a.supply, cfg.normalize(email));
    if found.Some? {
      var row := ResetRequest(Digest(ResetTag, 0, a.supply), now + LINK_TTL);
      var c, d := a.(resets := a.resets[found.value := row]), b.(resets := b.resets[found.value := row]);
      TrimResetRow(cfg, a, b, now, found.value, row);
      var m := a.outbox + [Mail(cfg.normalize(email), PasswordReset, Some(a.supply))];
      TrimSharedChange(cfg, c, d, c.(supply := a.supply + 1, outbox := m), d.(supply := a.supply + 1, outbox := m), now);
    }
  }

  lemma SameChanging(cfg: Config, a: DB, b: DB, now: Time, link: Id)
    requires Trim(cfg, a, b, now) && ChangesOk(a.changes, a.supply)
    ensures Changing(b, now, link) == Changing(a, now, link)
    ensures var x := Changing(a, now, link); x.Some? ==> x.value in b.changes && b.changes[x.value] == a.changes[x.value]
  {
    hide TrimFlows, TrimOAuth, TrimResets, TrimActivations, TrimPasskeyRequests;
  }

  lemma AskNewSimilar(cfg: Config, a: DB, b: DB, now: Time, x: Id)
    requires Trim(cfg, a, b, now) && x in a.changes && x in b.changes && b.changes[x] == a.changes[x]
    ensures Trim(cfg, AskNewAddress(a, x, now), AskNewAddress(b, x, now), now)
  {
    hide Trim;
    TrimShares(cfg, a, b, now);
    var row := a.changes[x].(stage := AwaitingNew, token := Digest(EmailChangeTag, 0, a.supply), expires := now + LINK_TTL);
    var c, d := a.(changes := a.changes[x := row]), b.(changes := b.changes[x := row]);
    TrimChangeRow(cfg, a, b, now, x, row);
    var m := a.outbox + [Mail(row.email, EmailChangeNew, Some(a.supply))];
    TrimSharedChange(cfg, c, d, c.(supply := a.supply + 1, outbox := m), d.(supply := a.supply + 1, outbox := m), now);
  }

  lemma MoveSimilar(cfg: Config, a: DB, b: DB, now: Time, x: Id)
    requires Trim(cfg, a, b, now) && x in a.changes && x in b.changes && b.changes[x] == a.changes[x] && x in a.accounts
    ensures x in b.accounts && Trim(cfg, Invalidate(MoveAddress(a, x), x, now), Invalidate(MoveAddress(b, x), x, now), now)
  {
    hide Trim, Invalidate;
    TrimShares(cfg, a, b, now);
    var c, d := a.(changes := a.changes - {x}), b.(changes := b.changes - {x});
    TrimChangeRow(cfg, a, b, now, x, a.changes[x]);
    ChangeAndInvalidate(cfg, c, d, MoveAddress(a, x), MoveAddress(b, x), x, now);
  }

  lemma SameTaken(a: DB, b: DB, email: string)
    requires b.accounts == a.accounts
    ensures EmailTaken(a, email) <==> EmailTaken(b, email)
  {
  }

  /** ConfirmEmail, once the request is found. */
  lemma ConfirmEmailIs(db: DB, now: Time, link: Id, baseOk: bool)
    ensures var x := Changing(db, now, link);
      ConfirmEmailTx(db, now, link, baseOk) ==
        if x.None? then Err(Invalid)
        else if db.changes[x.value].stage == AwaitingPrevious then
          (if baseOk then Ok(Commit(AskNewAddress(db, x.value, now), Flag(false))) else Err(Unavailable))
        else if Movable(db, x.value) then Ok(Commit(Invalidate(MoveAddress(db, x.value), x.value, now), Flag(true)))
        else Err(Conflict)
  {
    hide ChangeByToken, EmailTaken, Invalidate, MoveAddress, AskNewAddress;
  }

  lemma ConfirmEmailSimilar(cfg: Config, a: DB, b: DB, now: Time, link: Id, baseOk: bool)
    requires Pair(cfg, a, b, now)
    ensures Similar(cfg, ConfirmEmailTx(a, now, link, baseOk), ConfirmEmailTx(b, now, link, baseOk), now)
  {
    hide ConfirmEmailTx, Changing, AskNewAddress, MoveAddress, Invalidate, EmailTaken, Trim;
    hide Core, AccountsOk, SessionsOk, ResetsOk, ProcKeysOk, StepKeysOk, OAuthOk, ChangesOk, PasskeysOk, IdentitiesOk, BackupsOk, Numbered;
    SameChanging(cfg, a, b, now, link);
    TrimShares(cfg, a, b, now);
    ConfirmEmailIs(a, now, link, baseOk);
    ConfirmEmailIs(b, now, link, baseOk);
    var found := Changing(a, now, link);
    if found.Some? {
      var x := found.value;
      SameTaken(a, b, a.changes[x].email);
      AskNewSimilar(cfg, a, b, now, x);
      if x in a.accounts {
        MoveSimilar(cfg, a, b, now, x);
      }
    }
  }

  // ---------- setups in progress ----------

  lemma PrepareIdentitySimilar(cfg: Config, a: DB, b: DB, now: Time, who: Principal, provider: Provider, redirect: string, libraryOk: bool)
    requires Pair(cfg, a, b, now)
    ensures Similar(cfg, PrepareIdentityTx(cfg, a, now, who, provider, redirect, libraryOk),
                    PrepareIdentityTx(cfg, b, now, who, provider, redirect, libraryOk), now)
  {
    hide Trim, Pair;
    PairView(cfg, a, b, now, who);
    if who.Bearer? {
      var state, nonce, verifier := a.supply, a.supply + 1, a.supply + 2;
      var row := OAuthRequest(provider, None, Some(who.session), Digest(BindingTag, 0, who.session), redirect,
                              Digest(NonceTag, 0, nonce), verifier, now + REQUEST_TTL);
      var key := Digest(StateTag, 0, state);
      var c, d := a.(oauth := a.oauth[key := row]), b.(oauth := b.oauth[key := row]);
      TrimOAuthRow(cfg, a, b, now, key, row);
      TrimSharedChange(cfg, c, d, c.(supply := a.supply + 3), d.(supply := a.supply + 3), now);
    }
  }

  lemma BeginLinkSimilar(cfg: Config, a: DB, b: DB, now: Time, who: Principal, provider: Provider, state: Id)
    requires Pair(cfg, a, b, now)
    ensures Similar(cfg, BeginLinkTx(cfg, a, now, who, provider, state), BeginLinkTx(cfg, b, now, who, provider, state), now)
  {
    hide Trim, Pair, SameShared;
    PairView(cfg, a, b, now, who);
    PairOAuth(cfg, a, b, now);
    var key := Digest(StateTag, 0, state);
    SameLiveRequest(cfg, a, b, now, key);
    if key in b.oauth {
      TrimOAuthRow(cfg, a, b, now, key, b.oauth[key]);
    }
  }

  lemma SamePasskeyRequest(cfg: Config, a: DB, b: DB, now: Time, request: Id)
    requires Trim(cfg, a, b, now)
    ensures request in b.passkeyRequests ==> request in a.passkeyRequests && b.passkeyRequests[request] == a.passkeyRequests[request]
    ensures request in a.passkeyRequests && request !in b.passkeyRequests ==>
      a.passkeyRequests[request].expires < now || a.passkeyRequests[request].session !in b.sessions
  {
    hide TrimFlows, TrimChanges, TrimResets, TrimActivations, TrimOAuth;
  }

  lemma RegisterPasskeySimilar(cfg: Config, a: DB, b: DB, now: Time, who: Principal, request: Id, name: string, credential: Option<Id>)
    requires Pair(cfg, a, b, now)
    ensures Similar(cfg, RegisterPasskeyTx(cfg, a, now, who, request, name, credential),
                    RegisterPasskeyTx(cfg, b, now, who, request, name, credential), now)
  {
    hide Trim, Pair, Invalidate;
    PairView(cfg, a, b, now, who);
    SamePasskeyRequest(cfg, a, b, now, request);
    if request in b.passkeyRequests && credential.Some? && who.Bearer? {
      var c, d := a.(passkeyRequests := a.passkeyRequests - {request}), b.(passkeyRequests := b.passkeyRequests - {request});
      TrimPasskeyRow(cfg, a, b, now, request, b.passkeyRequests[request]);
      var keys := a.passkeys[a.supply := PasskeyRow(who.account, credential.value)];
      ChangeAndInvalidate(cfg, c, d, c.(passkeys := keys, supply := a.supply + 1), d.(passkeys := keys, supply := a.supply + 1), who.account, now);
    }
  }

  lemma SameActivation(cfg: Config, a: DB, b: DB, now: Time, account: Id)
    requires Trim(cfg, a, b, now)
    ensures account in b.activations ==> account in a.activations && b.activations[account] == a.activations[account]
    ensures account in a.activations && account !in b.activations ==>
      a.activations[account].expires < now || a.activations[account].session !in b.sessions
  {
    hide TrimFlows, TrimChanges, TrimResets, TrimPasskeyRequests, TrimOAuth;
  }

  lemma EnrolSimilar(cfg: Config, a: DB, b: DB, now: Time, account: Id, factor: TotpFactor, session: Id)
    requires Trim(cfg, a, b, now)
    ensures var c, d := a.(totp := a.totp[account := factor], activations := a.activations - {account}),
                        b.(totp := b.totp[account := factor], activations := b.activations - {account});
      var e, f := Invalidate(c, account, now), Invalidate(d, account, now);
      var g, h := DropSessions(e, SessionsOf(e, account) - {session}), DropSessions(f, SessionsOf(f, account) - {session});
      Trim(cfg, ReplaceBackupCodes(g, account).db, ReplaceBackupCodes(h, account).db, now)
      && ReplaceBackupCodes(g, account).answer == ReplaceBackupCodes(h, account).answer
  {
    hide Trim, Invalidate, DropSessions, SessionsOf, ReplaceBackupCodes;
    TrimShares(cfg, a, b, now);
    TrimActivationRow(cfg, a, b, now, account, Activation(0, 0, 0));
    var a', b' := a.(activations := a.activations - {account}), b.(activations := b.activations - {account});
    var c, d := a'.(totp := a.totp[account := factor]), b'.(totp := b.totp[account := factor]);
    ChangeAndInvalidate(cfg, a', b', c, d, account, now);
    hide SameShared;
    var e, f := Invalidate(c, account, now), Invalidate(d, account, now);
    SameSessionsOf(cfg, e, f, now, account);
    TrimDropSessions(cfg, e, f, SessionsOf(e, account) - {session}, SessionsOf(f, account) - {session}, now);
    var g, h := DropSessions(e, SessionsOf(e, account) - {session}), DropSessions(f, SessionsOf(f, account) - {session});
    TrimShares(cfg, g, h, now);
    ReplaceCodesAlike(g, h, account);
    TrimSharedChange(cfg, g, h, ReplaceBackupCodes(g, account).db, ReplaceBackupCodes(h, account).db, now);
  }

  lemma ConfirmTotpSimilar(cfg: Config, a: DB, b: DB, now: Time, who: Principal, digits: string)
    requires Pair(cfg, a, b, now)
    ensures Similar(cfg, ConfirmTotpTx(cfg, a, now, who, digits), ConfirmTotpTx(cfg, b, now, who, digits), now)
  {
    hide Trim, Pair, Invalidate, DropSessions, SessionsOf, ReplaceBackupCodes, TotpStep;
    PairView(cfg, a, b, now, who);
    if who.Bearer? {
      SameActivation(cfg, a, b, now, who.account);
      if who.account in b.activations {
        var key := b.activations[who.account].key;
        var used := TotpStep(cfg.mac, key, digits, now, -1);
        if used.Some? {
          EnrolSimilar(cfg, a, b, now, who.account, TotpFactor(key, used.value), who.session);
        }
      }
    }
  }

  // ---------- sessions ----------

  lemma IssueAlike(a: DB, b: DB, now: Time, account: Id, session: Id, refresh: Id, expires: Time)
    requires b.accounts == a.accounts && b.deletions == a.deletions
    ensures Issue(a, now, account, session, refresh, expires) == Issue(b, now, account, session, refresh, expires)
  {
  }

  lemma OpenSessionSimilar(cfg: Config, a: DB, b: DB, now: Time, account: Id, ttl: int)
    requires Trim(cfg, a, b, now) && account in a.accounts
    ensures account in b.accounts && Similar(cfg, OpenSession(a, now, account, ttl), OpenSession(b, now, account, ttl), now)
  {
    hide Trim, Issue, Notify;
    TrimShares(cfg, a, b, now);
    var refresh, id := a.supply, a.supply + 1;
    var row := Session(account, Digest(RefreshTag, 0, refresh), now + ttl);
    var c, d := a.(sessions := a.sessions[id := row], supply := a.supply + 2), b.(sessions := b.sessions[id := row], supply := a.supply + 2);
    TrimSessionPut(cfg, a, b, now, id, row, a.supply + 2);
    IssueAlike(c, d, now, account, id, refresh, row.expires);
    NotifySimilar(cfg, c, d, now, account, NewLogin);
  }

  lemma CreateSessionSimilar(cfg: Config, a: DB, b: DB, now: Time, grant: Id, ttl: int)
    requires Pair(cfg, a, b, now)
    ensures Similar(cfg, CreateSessionTx(a, now, grant, ttl), CreateSessionTx(b, now, grant, ttl), now)
  {
    hide OpenSession, Trim, Inv, ConsumeGrant, ProcByGrant, ProcsOk, StepsOk, ProcKeysOk, StepKeysOk, HoldsGrant, Spendable, SameShared;
    PairFacts(cfg, a, b, now);
    SameHolder(cfg, a, b, now, grant);
    var found := ProcByGrant(a.procs, a.supply, Digest(GrantTag, 0, grant));
    if found.Some? {
      var purpose := a.procs[found.value].purpose;
      SpendSimilar(cfg, a, b, now, grant, purpose, Anonymous);
      if found.value in b.procs {
        SameRow(cfg, a, b, now, found.value);
      } else {
        UnkeptNotSpent(cfg, a, b, now, grant, purpose, found.value);
      }
      var r, t := ConsumeGrant(a, now, grant, purpose, Anonymous), ConsumeGrant(b, now, grant, purpose, Anonymous);
      if r.Ok? {
        OpenSessionSimilar(cfg, r.value.db, t.value.db, now, r.value.account, ttl);
      }
    }
  }

  lemma UnkeptNotSpent(cfg: Config, a: DB, b: DB, now: Time, token: Id, purpose: Purpose, id: Id)
    requires Trim(cfg, a, b, now) && ProcsOk(cfg, a.procs, now)
    requires ProcByGrant(a.procs, a.supply, Digest(GrantTag, 0, token)) == Some(id) && id !in b.procs
    ensures ConsumeGrant(a, now, token, purpose, Anonymous).Err?
  {
    if ConsumeGrant(a, now, token, purpose, Anonymous).Ok? {
      SpendableIsKept(cfg, a, b, now, token, purpose, Anonymous);
    }
    hide Trim, ProcByGrant, ProcsOk;
  }

  lemma SameAccepts(cfg: Config, a: DB, b: DB, now: Time, id: Id, refresh: Id)
    requires Trim(cfg, a, b, now)
    ensures AcceptsRefresh(a, now, id, refresh) <==> AcceptsRefresh(b, now, id, refresh)
    ensures id in b.sessions ==> id in a.sessions && b.sessions[id] == a.sessions[id]
  {
    hide TrimRequests, TrimProcs, TrimSteps, TrimSignups, SameShared;
  }

  lemma RefreshSimilar(cfg: Config, a: DB, b: DB, now: Time, id: Id, refresh: Id, ttl: int)
    requires Pair(cfg, a, b, now)
    ensures Similar(cfg, RefreshTx(a, now, id, refresh, ttl), RefreshTx(b, now, id, refresh, ttl), now)
  {
    hide Trim, Inv, Issue;
    SameAccepts(cfg, a, b, now, id, refresh);
    TrimShares(cfg, a, b, now);
    if AcceptsRefresh(a, now, id, refresh) {
      var row := a.sessions[id].(refresh := Digest(RefreshTag, 0, a.supply), expires := now + ttl);
      RefreshDrawn(cfg, a, b, now, id);
      TrimSessionPut(cfg, a, b, now, id, row, a.supply + 1);
      var c, d := a.(sessions := a.sessions[id := row], supply := a.supply + 1), b.(sessions := b.sessions[id := row], supply := a.supply + 1);
      IssueAlike(c, d, now, row.account, id, a.supply, row.expires);
    }
  }

  lemma RefreshDrawn(cfg: Config, a: DB, b: DB, now: Time, id: Id)
    requires Trim(cfg, a, b, now) && id in b.sessions
    ensures id < a.supply
  {
    hide TrimRequests, TrimProcs, TrimSteps, TrimSignups, SameShared;
  }

  lemma RevokeSimilar(cfg: Config, a: DB, b: DB, now: Time, who: Principal, only: Option<Id>)
    requires Pair(cfg, a, b, now)
    ensures Similar(cfg, RevokeSessionsTx(a, now, who, only), RevokeSessionsTx(b, now, who, only), now)
  {
    hide Trim, Inv, SessionsOf, DropSessions;
    SameSessions(cfg, a, b, now, who);
    if who.Bearer? {
      SameSessionsOf(cfg, a, b, now, who.account);
      var x, y := SessionsOf(a, who.account), SessionsOf(b, who.account);
      TrimDropSessions(cfg, a, b, if only.Some? then x * {only.value} else x, if only.Some? then y * {only.value} else y, now);
    }
  }


  lemma NoOrphans(db: DB)
    requires Linked(db)
    ensures WithoutSessionOrphans(db) == db
  {
    var d := WithoutSessionOrphans(db);
    assert d.procs == db.procs && d.oauth == db.oauth;
    assert d.activations == db.activations && d.passkeyRequests == db.passkeyRequests;
  }

  lemma NoCascade(db: DB)
    requires Linked(db) && Rooted(db)
    ensures CascadeProcesses(db) == db
  {
    var d := CascadeProcesses(db);
    assert d.steps == db.steps && d.signups == db.signups;
    assert d.oauth == db.oauth;
  }

  // Where nothing hangs loose, dropping no session drops nothing.
  lemma DropNothing(db: DB)
    requires Linked(db) && Rooted(db)
    ensures DropSessions(db, {}) == db
  {
    hide Linked, Rooted, WithoutSessionOrphans, CascadeProcesses;
    var none: set<Id> := {};
    var kept := map s | s in db.sessions && s !in none :: db.sessions[s];
    assert kept == db.sessions;
    assert db.(sessions := kept) == db && DropSessions(db, none) == CascadeSessions(db.(sessions := kept));
    NoOrphans(db);
    NoCascade(db);
  }

  // Logging out of a session that one state lacks drops dead rows of the other.
  lemma LogoutSimilar(cfg: Config, a: DB, b: DB, now: Time, id: Id, refresh: Id)
    requires Pair(cfg, a, b, now)
    ensures Similar(cfg, LogoutRefreshTx(a, id, refresh), LogoutRefreshTx(b, id, refresh), now)
  {
    hide Trim, Core, Keys, DropSessions, Linked, Rooted;
    SameAccepts(cfg, a, b, now, id, refresh);
    if id in b.sessions {
      TrimDropSessions(cfg, a, b, {id}, {id}, now);
    } else {
      InvRooted(cfg, b, now);
      DropNothing(b);
      TrimDropSessions(cfg, a, b, {id}, {}, now);
    }
  }

  // ---------- deletion and cleanup ----------

  lemma DeleteDueSimilar(cfg: Config, a: DB, b: DB, now: Time)
    requires Pair(cfg, a, b, now)
    ensures Similar(cfg, DeleteDueTx(a, now), DeleteDueTx(b, now), now)
  {
    hide Trim, Pair, DropAccount, NextDue, Notify;
    PairView(cfg, a, b, now, Anonymous);
    var due := NextDue(a.accounts, a.deletions, a.supply, now);
    if due.Some? {
      var x := due.value;
      var m := ProfileDeleted(x, a.deletions[x].shared);
      var c, d := Enqueue(a, m), Enqueue(b, m);
      TrimSharedChange(cfg, a, b, c, d, now);
      NotifySimilar(cfg, c, d, now, x, AccountDeleted);
      TrimDropAccount(cfg, Notify(c, x, AccountDeleted), Notify(d, x, AccountDeleted), x, now);
    }
  }

  lemma PurgeOAuthTrims(cfg: Config, a: DB, b: DB, now: Time)
    requires Trim(cfg, a, b, now)
    ensures Trim(cfg, Execute(cfg, a, now, PurgeOAuth), Execute(cfg, b, now, PurgeOAuth), now)
  {
    hide TrimSessions, TrimProcs, TrimSteps, TrimSignups, TrimChanges, TrimResets, TrimActivations, TrimPasskeyRequests;
  }

  lemma PurgeChangesTrims(cfg: Config, a: DB, b: DB, now: Time)
    requires Trim(cfg, a, b, now)
    ensures Trim(cfg, Execute(cfg, a, now, PurgeChanges), Execute(cfg, b, now, PurgeChanges), now)
  {
    hide TrimSessions, TrimProcs, TrimSteps, TrimSignups, TrimOAuth, TrimResets, TrimActivations, TrimPasskeyRequests;
  }

  lemma PurgeResetsTrims(cfg: Config, a: DB, b: DB, now: Time)
    requires Trim(cfg, a, b, now)
    ensures Trim(cfg, Execute(cfg, a, now, PurgeResets), Execute(cfg, b, now, PurgeResets), now)
  {
    hide TrimSessions, TrimProcs, TrimSteps, TrimSignups, TrimOAuth, TrimChanges, TrimActivations, TrimPasskeyRequests;
  }

  lemma PurgeActivationsTrims(cfg: Config, a: DB, b: DB, now: Time)
    requires Trim(cfg, a, b, now)
    ensures Trim(cfg, Execute(cfg, a, now, PurgeActivations), Execute(cfg, b, now, PurgeActivations), now)
  {
    hide TrimSessions, TrimProcs, TrimSteps, TrimSignups, TrimOAuth, TrimChanges, TrimResets, TrimPasskeyRequests;
  }

  lemma PurgePasskeyRequestsTrims(cfg: Config, a: DB, b: DB, now: Time)
    requires Trim(cfg, a, b, now)
    ensures Trim(cfg, Execute(cfg, a, now, PurgePasskeyRequests), Execute(cfg, b, now, PurgePasskeyRequests), now)
  {
    hide TrimSessions, TrimProcs, TrimSteps, TrimSignups, TrimOAuth, TrimChanges, TrimResets, TrimActivations;
  }

  lemma PurgeProcessesTrims(cfg: Config, a: DB, b: DB, now: Time)
    requires Trim(cfg, a, b, now)
    ensures Trim(cfg, DropProcesses(a, Uncollected(cfg, a.procs, now)), DropProcesses(b, Uncollected(cfg, b.procs, now)), now)
  {
    hide CascadeProcesses;
    var pa, pb := Uncollected(cfg, a.procs, now), Uncollected(cfg, b.procs, now);
    assert TrimProcs(cfg, pa, pb, b.sessions.Keys, a.supply, now) by { hide TrimRequests, TrimSteps, TrimSignups, TrimSessions, SameShared; }
    assert LooseSteps(a.steps, b.steps, pb.Keys) && LooseSignups(a.signups, b.signups, pb.Keys) by {
      hide TrimRequests, TrimSessions, SameShared, TrimProcs;
    }
    hide TrimProcs, TrimSteps, TrimSignups, LooseSteps, LooseSignups, TrimSessions, Uncollected;
    CascadeTrims(cfg, a.(procs := pa), b.(procs := pb), now);
  }

  lemma PurgeSessionsTrims(cfg: Config, a: DB, b: DB, now: Time)
    requires Trim(cfg, a, b, now)
    ensures Trim(cfg, DropSessions(a, Expired(a.sessions, now)), DropSessions(b, Expired(b.sessions, now)), now)
  {
    assert forall s | s in b.sessions :: s in a.sessions && b.sessions[s] == a.sessions[s] by {
      hide TrimRequests, TrimProcs, TrimSteps, TrimSignups, SameShared;
    }
    hide Trim, DropSessions;
    TrimDropSessions(cfg, a, b, Expired(a.sessions, now), Expired(b.sessions, now), now);
  }

  lemma PurgeTrims(cfg: Config, a: DB, b: DB, now: Time, q: Statement)
    requires Trim(cfg, a, b, now)
    ensures Trim(cfg, Execute(cfg, a, now, q), Execute(cfg, b, now, q), now)
  {
    hide Trim, DropSessions, DropProcesses;
    match q
    case PurgeOAuth => PurgeOAuthTrims(cfg, a, b, now);
    case PurgeChanges => PurgeChangesTrims(cfg, a, b, now);
    case PurgeResets => PurgeResetsTrims(cfg, a, b, now);
    case PurgeActivations => PurgeActivationsTrims(cfg, a, b, now);
    case PurgePasskeyRequests => PurgePasskeyRequestsTrims(cfg, a, b, now);
    case PurgeProcesses => PurgeProcessesTrims(cfg, a, b, now);
    case PurgeSessions => PurgeSessionsTrims(cfg, a, b, now);
  }

  lemma {:induction false} CleanupTrims(cfg: Config, a: DB, b: DB, now: Time, qs: seq<Statement>)
    requires Trim(cfg, a, b, now)
    ensures Trim(cfg, ExecuteAll(cfg, a, now, qs), ExecuteAll(cfg, b, now, qs), now)
  {
    hide Trim, Execute;
    if qs != [] {
      CleanupTrims(cfg, a, b, now, qs[..|qs| - 1]);
      PurgeTrims(cfg, ExecuteAll(cfg, a, now, qs[..|qs| - 1]), ExecuteAll(cfg, b, now, qs[..|qs| - 1]), now, qs[|qs| - 1]);
    }
  }

  lemma CleanupSimilar(cfg: Config, a: DB, b: DB, now: Time)
    requires Pair(cfg, a, b, now)
    ensures Similar(cfg, CleanupTx(cfg, a, now), CleanupTx(cfg, b, now), now)
  {
    hide Trim, ExecuteAll;
    CleanupTrims(cfg, a, b, now, STATEMENTS);
  }
}
