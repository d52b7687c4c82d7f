/** Confirmation tokens over whole runs: each is spent at most once, by its own purpose, account and session. */
module Grants {
  import opened Base
  import opened Secrets
  import opened Store
  import opened Answers
  import opened Processes
  import opened Accounts
  import opened Totps
  import opened Sessions
  import opened Mails
  import opened CredentialOps
  import opened Protocol
  import opened Invariant
  import opened KeyActions
  import opened Reachability
  import opened Evolution

  // ---------- tokens that no process holds ----------

  /** The token was drawn, and no process holds it. */
  ghost predicate TokenDead(db: DB, token: Id) {
    token < db.supply && forall p | p in db.procs :: !HoldsGrant(db.procs[p], Digest(GrantTag, 0, token))
  }

  lemma DeadTokenStaysDead(a: DB, b: DB, token: Id)
    requires TokenDead(a, token) && Evolved(a, b)
    ensures TokenDead(b, token)
  {
    hide RowEvolves, StepsEvolve;
  }

  lemma DeadTokenRefused(db: DB, now: Time, token: Id, purpose: Purpose, who: Principal)
    requires TokenDead(db, token)
    ensures ConsumeGrant(db, now, token, purpose, who) == Err(Forbidden)
  {
  }

  /** No process has a grant it had not in a. */
  ghost predicate NoNewGrants(a: DB, b: DB) {
    && a.supply <= b.supply
    && (forall p | p in b.procs :: p in a.procs && (b.procs[p].grant.Some? ==> b.procs[p].grant == a.procs[p].grant))
  }

  lemma SpendingKills(db: DB, now: Time, token: Id, purpose: Purpose, who: Principal, b: DB)
    requires ProcKeysOk(db.procs, db.supply) && ConsumeGrant(db, now, token, purpose, who).Ok?
    requires NoNewGrants(ConsumeGrant(db, now, token, purpose, who).value.db, b)
    ensures TokenDead(b, token)
  {
    var spent := ConsumeGrant(db, now, token, purpose, who).value;
    hide ConsumeGrant;
    assert IsDrawn(db.procs[spent.process].grant.value.hash, GrantTag, db.supply);
    assert forall p | p in db.procs && p != spent.process :: !SameGrant(db.procs[p], db.procs[spent.process]);
    hide ProcKeysOk;
  }

  // ---------- which transaction spends which token ----------

  datatype Order = Order(token: Id, purpose: Purpose, who: Principal)

  /** The token the transaction must spend to commit; an account without a password sets its first one freely. */
  function OrderOf(db: DB, a: Action): Option<Order> {
    match a
    case SetPassword(who, grant, _) =>
      if who.Bearer? && who.account in db.accounts && db.accounts[who.account].password.None? then None
      else Some(Order(grant, PasswordChange, who))
    case RequestDeletion(who, grant, _, _) => Some(Order(grant, AccountDeletion, who))
    case StartTotp(who, grant) => Some(Order(grant, TotpEnrollment, who))
    case DeleteTotp(who, grant) => Some(Order(grant, TotpRemoval, who))
    case RotateBackupCodes(who, grant) => Some(Order(grant, BackupCodesRotation, who))
    case CreateSession(grant, _) =>
      var found := ProcByGrant(db.procs, db.supply, Digest(GrantTag, 0, grant));
      Some(Order(grant, if found.Some? then db.procs[found.value].purpose else SignIn, Anonymous))
    case ChangeEmail(who, grant, _, _) => Some(Order(grant, EmailChanging, who))
    case FinishLink(who, grant, _, _) => Some(Order(grant, IdentityLink, who))
    case UnlinkIdentity(who, grant, _) => Some(Order(grant, IdentityUnlink, who))
    case StartPasskey(who, grant, _) => Some(Order(grant, PasskeyEnrollment, who))
    case DeletePasskey(who, grant, _) => Some(Order(grant, PasskeyRemoval, who))
    case _ => None
  }

  function Spend(db: DB, now: Time, o: Order): Result<Spent> {
    ConsumeGrant(db, now, o.token, o.purpose, o.who)
  }

  /** The order was honoured, and nothing after it in the transaction issues a grant. */
  ghost predicate Honoured(db: DB, now: Time, o: Order, b: DB) {
    Spend(db, now, o).Ok? && NoNewGrants(Spend(db, now, o).value.db, b)
  }

  // Invalidating and dropping issue nothing.
  lemma InvalidateIssuesNothing(a: DB, d: DB, account: Id, now: Time)
    requires d.procs == a.procs && a.supply <= d.supply
    ensures NoNewGrants(a, Invalidate(d, account, now))
  {
  }

  lemma DropSessionsIssuesNothing(a: DB, d: DB, gone: set<Id>)
    requires NoNewGrants(a, d)
    ensures NoNewGrants(a, DropSessions(d, gone))
  {
  }

  lemma SameProcsIssueNothing(a: DB, d: DB)
    requires d.procs == a.procs && a.supply <= d.supply
    ensures NoNewGrants(a, d)
  {
  }

  lemma ReplacePasswordIssuesNothing(db: DB, now: Time, account: Id, password: Store.Password, keep: set<Id>)
    requires account in db.accounts
    ensures NoNewGrants(db, Settle(db, ReplacePassword(db, now, account, password, keep)).db)
  {
    var c := StorePassword(db, account, password);
    InvalidateIssuesNothing(db, c, account, now);
    var d := Notify(Invalidate(c, account, now), account, PasswordChanged);
    assert NoNewGrants(db, d);
    DropSessionsIssuesNothing(db, d, SessionsOf(d, account) - keep);
    hide NoNewGrants, Invalidate, DropSessions, StorePassword;
  }

  lemma SetPasswordHonours(cfg: Config, db: DB, now: Time, who: Principal, grant: Id, password: Store.Password)
    requires SetPasswordTx(cfg, db, now, who, grant, password).Ok? && OrderOf(db, SetPassword(who, grant, password)).Some?
    ensures Honoured(db, now, Order(grant, PasswordChange, who), SetPasswordTx(cfg, db, now, who, grant, password).value.db)
  {
    hide ReplacePassword, ConsumeGrant, PurposePrincipal;
    var c := ConsumeGrant(db, now, grant, PasswordChange, who).value.db;
    ReplacePasswordIssuesNothing(c, now, who.account, password, {who.session});
    SameProcsIssueNothing(c, c);
    hide NoNewGrants;
  }

  lemma DeletionHonours(db: DB, now: Time, who: Principal, grant: Id, shared: bool, delay: int)
    requires RequestDeletionTx(db, now, who, grant, shared, delay).Ok?
    ensures Honoured(db, now, Order(grant, AccountDeletion, who), RequestDeletionTx(db, now, who, grant, shared, delay).value.db)
  {
    hide ConsumeGrant;
    SameProcsIssueNothing(ConsumeGrant(db, now, grant, AccountDeletion, who).value.db, RequestDeletionTx(db, now, who, grant, shared, delay).value.db);
    hide NoNewGrants;
  }

  lemma StartTotpHonours(db: DB, now: Time, who: Principal, grant: Id)
    requires StartTotpTx(db, now, who, grant).Ok?
    ensures Honoured(db, now, Order(grant, TotpEnrollment, who), StartTotpTx(db, now, who, grant).value.db)
  {
    hide ConsumeGrant;
    SameProcsIssueNothing(ConsumeGrant(db, now, grant, TotpEnrollment, who).value.db, StartTotpTx(db, now, who, grant).value.db);
    hide NoNewGrants;
  }

  lemma DeleteTotpHonours(db: DB, now: Time, who: Principal, grant: Id)
    requires DeleteTotpTx(db, now, who, grant).Ok?
    ensures Honoured(db, now, Order(grant, TotpRemoval, who), DeleteTotpTx(db, now, who, grant).value.db)
  {
    hide ConsumeGrant, Invalidate;
    var s := ConsumeGrant(db, now, grant, TotpRemoval, who).value;
    InvalidateIssuesNothing(s.db, s.db.(totp := s.db.totp - {s.account}), s.account, now);
    hide NoNewGrants;
  }

  lemma RotateHonours(db: DB, now: Time, who: Principal, grant: Id)
    requires RotateBackupCodesTx(db, now, who, grant).Ok?
    ensures Honoured(db, now, Order(grant, BackupCodesRotation, who), RotateBackupCodesTx(db, now, who, grant).value.db)
  {
    hide ConsumeGrant, Invalidate;
    var s := ConsumeGrant(db, now, grant, BackupCodesRotation, who).value;
    ReplacedCodesOnly(s.db, s.account);
    InvalidateIssuesNothing(s.db, ReplaceBackupCodes(s.db, s.account).db, s.account, now);
    hide NoNewGrants, ReplaceBackupCodes;
  }

  lemma CreateSessionHonours(db: DB, now: Time, grant: Id, ttl: int)
    requires CreateSessionTx(db, now, grant, ttl).Ok?
    ensures Honoured(db, now, OrderOf(db, CreateSession(grant, ttl)).value, CreateSessionTx(db, now, grant, ttl).value.db)
  {
    hide ConsumeGrant, ProcByGrant;
    var o := OrderOf(db, CreateSession(grant, ttl)).value;
    SameProcsIssueNothing(Spend(db, now, o).value.db, CreateSessionTx(db, now, grant, ttl).value.db);
    hide NoNewGrants;
  }

  lemma ChangeEmailHonours(cfg: Config, db: DB, now: Time, who: Principal, grant: Id, email: string, baseOk: bool)
    requires ChangeEmailTx(cfg, db, now, who, grant, email, baseOk).Ok?
    ensures Honoured(db, now, Order(grant, EmailChanging, who), ChangeEmailTx(cfg, db, now, who, grant, email, baseOk).value.db)
  {
    hide ConsumeGrant;
    SameProcsIssueNothing(ConsumeGrant(db, now, grant, EmailChanging, who).value.db, ChangeEmailTx(cfg, db, now, who, grant, email, baseOk).value.db);
    hide NoNewGrants;
  }

  lemma FinishLinkHonours(db: DB, now: Time, who: Principal, grant: Id, provider: Provider, subject: string)
    requires FinishLinkTx(db, now, who, grant, provider, subject).Ok?
    ensures Honoured(db, now, Order(grant, IdentityLink, who), FinishLinkTx(db, now, who, grant, provider, subject).value.db)
  {
    hide ConsumeGrant, Invalidate, IdentityTaken;
    var s := ConsumeGrant(db, now, grant, IdentityLink, who).value;
    SameProcsIssueNothing(s.db, s.db);
    InvalidateIssuesNothing(s.db, s.db.(identities := s.db.identities[IdentityKey(s.account, provider) := subject]), s.account, now);
    hide NoNewGrants;
  }

  lemma UnlinkHonours(db: DB, now: Time, who: Principal, grant: Id, provider: Provider)
    requires UnlinkIdentityTx(db, now, who, grant, provider).Ok?
    ensures Honoured(db, now, Order(grant, IdentityUnlink, who), UnlinkIdentityTx(db, now, who, grant, provider).value.db)
  {
    hide ConsumeGrant, Invalidate, HasOtherCredential;
    var s := ConsumeGrant(db, now, grant, IdentityUnlink, who).value;
    InvalidateIssuesNothing(s.db, s.db.(identities := s.db.identities - {IdentityKey(s.account, provider)}), s.account, now);
    hide NoNewGrants;
  }

  lemma StartPasskeyHonours(cfg: Config, db: DB, now: Time, who: Principal, grant: Id, libraryOk: bool)
    requires StartPasskeyTx(cfg, db, now, who, grant, libraryOk).Ok?
    ensures Honoured(db, now, Order(grant, PasskeyEnrollment, who), StartPasskeyTx(cfg, db, now, who, grant, libraryOk).value.db)
  {
    hide ConsumeGrant;
    SameProcsIssueNothing(ConsumeGrant(db, now, grant, PasskeyEnrollment, who).value.db, StartPasskeyTx(cfg, db, now, who, grant, libraryOk).value.db);
    hide NoNewGrants;
  }

  lemma DeletePasskeyHonours(db: DB, now: Time, who: Principal, grant: Id, passkey: Id)
    requires DeletePasskeyTx(db, now, who, grant, passkey).Ok?
    ensures Honoured(db, now, Order(grant, PasskeyRemoval, who), DeletePasskeyTx(db, now, who, grant, passkey).value.db)
  {
    hide ConsumeGrant, Invalidate, HasOtherCredential;
    var s := ConsumeGrant(db, now, grant, PasskeyRemoval, who).value;
    InvalidateIssuesNothing(s.db, s.db.(passkeys := WithoutPasskey(s.db.passkeys, s.account, passkey)), s.account, now);
    hide NoNewGrants;
  }

  /** An action that takes a token commits only after spending it and issues no other grant; one that fails leaves everything as it was. */
  lemma OrdersHonoured(cfg: Config, db: DB, call: Call)
    requires OrderOf(db, call.action).Some?
    ensures if Transact(cfg, db, call.now, call.action).Ok? then Honoured(db, call.now, OrderOf(db, call.action).value, Apply(cfg, db, call).db)
            else Apply(cfg, db, call).db == db
  {
    hide *;
    Dispatched(cfg, db, call);
    if Transact(cfg, db, call.now, call.action).Ok? {
      CommitsHonour(cfg, db, call);
    }
  }

  lemma CommitsHonour(cfg: Config, db: DB, call: Call)
    requires OrderOf(db, call.action).Some? && Transact(cfg, db, call.now, call.action).Ok?
    ensures Honoured(db, call.now, OrderOf(db, call.action).value, Apply(cfg, db, call).db)
  {
    var now := call.now;
    hide Honoured, SetPasswordTx, RequestDeletionTx, StartTotpTx, DeleteTotpTx, RotateBackupCodesTx, CreateSessionTx, ChangeEmailTx,
      FinishLinkTx, UnlinkIdentityTx, StartPasskeyTx, DeletePasskeyTx, ProcByGrant;
    match call.action
    case SetPassword(who, grant, password) => SetPasswordHonours(cfg, db, now, who, grant, password);
    case RequestDeletion(who, grant, shared, delay) => DeletionHonours(db, now, who, grant, shared, delay);
    case StartTotp(who, grant) => StartTotpHonours(db, now, who, grant);
    case DeleteTotp(who, grant) => DeleteTotpHonours(db, now, who, grant);
    case RotateBackupCodes(who, grant) => RotateHonours(db, now, who, grant);
    case CreateSession(grant, ttl) => CreateSessionHonours(db, now, grant, ttl);
    case ChangeEmail(who, grant, email, baseOk) => ChangeEmailHonours(cfg, db, now, who, grant, email, baseOk);
    case FinishLink(who, grant, provider, subject) => FinishLinkHonours(db, now, who, grant, provider, subject);
    case UnlinkIdentity(who, grant, provider) => UnlinkHonours(db, now, who, grant, provider);
    case StartPasskey(who, grant, libraryOk) => StartPasskeyHonours(cfg, db, now, who, grant, libraryOk);
    case DeletePasskey(who, grant, passkey) => DeletePasskeyHonours(db, now, who, grant, passkey);
  }

  // ---------- over runs ----------

  /** The call commits, and it spends the token. */
  ghost predicate Spends(cfg: Config, db: DB, call: Call, token: Id) {
    && OrderOf(db, call.action).Some? && OrderOf(db, call.action).value.token == token
    && Transact(cfg, db, call.now, call.action).Ok?
  }

  lemma SpentTokenIsDead(cfg: Config, db: DB, clock: Time, call: Call, token: Id)
    requires Inv(cfg, db, clock) && Spends(cfg, db, call, token)
    ensures TokenDead(Apply(cfg, db, call).db, token)
  {
    hide Apply, Transact, OrderOf, ConsumeGrant;
    var o := OrderOf(db, call.action).value;
    OrdersHonoured(cfg, db, call);
    hide Core, ProcKeysOk, NoNewGrants;
    SpendingKills(db, call.now, token, o.purpose, o.who, Apply(cfg, db, call).db);
  }

  lemma DeadTokenNotSpent(cfg: Config, db: DB, call: Call, token: Id)
    requires TokenDead(db, token)
    ensures !Spends(cfg, db, call, token)
  {
    hide Transact;
    if Spends(cfg, db, call, token) {
      var o := OrderOf(db, call.action).value;
      DeadTokenRefused(db, call.now, token, o.purpose, o.who);
      OrdersHonoured(cfg, db, call);
      hide *;
    }
  }

  /** Over any run, at most one committed transaction spends a given token. */
  lemma TokenSpentOnce(cfg: Config, run: seq<Call>, now: Time, i: nat, j: nat, token: Id)
    requires Ordered(run, now) && i < j < |run|
    requires Spends(cfg, After(cfg, run[..i]), run[i], token)
    ensures !Spends(cfg, After(cfg, run[..j]), run[j], token)
  {
    hide Inv, Spends, Apply, After, TokenDead, Evolved;
    RunBetween(cfg, run, now, i, j);
    SpentTokenIsDead(cfg, After(cfg, run[..i]), run[i].now, run[i], token);
    var b := After(cfg, run[..i + 1]);
    RunEvolves(cfg, b, run[i].now, run[i + 1..j], run[j].now);
    DeadTokenStaysDead(b, After(cfg, run[..j]), token);
    DeadTokenNotSpent(cfg, After(cfg, run[..j]), run[j], token);
  }

  /** The process whose grant the call spends. */
  function SpentProcess(db: DB, now: Time, call: Call): Option<Id> {
    var o := OrderOf(db, call.action);
    if o.Some? && Spend(db, now, o.value).Ok? then Some(Spend(db, now, o.value).value.process) else None
  }

  /** What a committed spending proves: a live grant of the right purpose, in the hands it was issued to. */
  lemma SpendingIsBound(cfg: Config, db: DB, call: Call, token: Id)
    requires Spends(cfg, db, call, token)
    ensures SpentProcess(db, call.now, call).Some?
    ensures var o, id := OrderOf(db, call.action).value, SpentProcess(db, call.now, call).value;
      && id in db.procs && HoldsGrant(db.procs[id], Digest(GrantTag, 0, token)) && Spendable(db.procs[id], o.purpose, call.now)
      && (Sensitive(o.purpose) ==>
            o.who.Bearer? && db.procs[id].account == Some(o.who.account) && db.procs[id].session == Some(o.who.session)
            && PurposePrincipal(db, call.now, o.who, o.purpose))
  {
    hide Transact;
    OrdersHonoured(cfg, db, call);
    hide Transact, OrderOf, PurposePrincipal, ProcByGrant;
  }

  // A process whose grant was spent is settled without one, and stays so.
  lemma SpentProcessStaysSpent(cfg: Config, db: DB, clock: Time, call: Call, token: Id, c: DB)
    requires Inv(cfg, db, clock) && clock <= call.now && Spends(cfg, db, call, token)
    requires Evolved(Apply(cfg, db, call).db, c)
    ensures SpentProcess(db, call.now, call).Some?
    ensures var id := SpentProcess(db, call.now, call).value; id in db.procs && (id in c.procs ==> c.procs[id].grant.None?)
  {
    hide Transact, OrderOf, Spend, PurposePrincipal, Evolved, Apply, Inv, Honoured, ProcByGrant, HoldsGrant;
    SpendingIsBound(cfg, db, call, token);
    var id := SpentProcess(db, call.now, call).value;
    SpentRowIsCleared(cfg, db, clock, call, token);
    if id in Apply(cfg, db, call).db.procs {
      SpentRowIsSettled(cfg, db, clock, call, id);
    }
    SettledRowStays(cfg, db, clock, Apply(cfg, db, call).db, c, call.now, id);
  }

  lemma SpentRowIsCleared(cfg: Config, db: DB, clock: Time, call: Call, token: Id)
    requires Inv(cfg, db, clock) && Spends(cfg, db, call, token) && SpentProcess(db, call.now, call).Some?
    ensures var id, b := SpentProcess(db, call.now, call).value, Apply(cfg, db, call).db;
      (id in b.procs ==> b.procs[id].grant.None?) && db.supply <= b.supply
  {
    hide Transact, OrderOf, PurposePrincipal, Apply, Inv, ConsumeGrant;
    OrdersHonoured(cfg, db, call);
    SpendGrant(db, call.now, OrderOf(db, call.action).value);
  }

  lemma SettledRowStays(cfg: Config, db: DB, clock: Time, b: DB, c: DB, now: Time, id: Id)
    requires Inv(cfg, db, clock) && id in db.procs && db.supply <= b.supply
    requires id in b.procs ==> b.procs[id].grant.None? && b.procs[id].status == Completed
    requires Evolved(b, c)
    ensures id in c.procs ==> c.procs[id].grant.None?
  {
    hide StepsEvolve, Core;
    assert id < db.supply;
    hide Keys;
  }

  lemma SpendGrant(db: DB, now: Time, o: Order)
    requires Spend(db, now, o).Ok?
    ensures var s := Spend(db, now, o).value;
      s.process in s.db.procs && s.db.procs[s.process].grant.None? && s.db.supply == db.supply
  {
    hide PurposePrincipal;
  }

  lemma SpentRowIsSettled(cfg: Config, db: DB, clock: Time, call: Call, id: Id)
    requires Inv(cfg, db, clock) && clock <= call.now && id in db.procs && db.procs[id].status == Completed && id in Apply(cfg, db, call).db.procs
    ensures Apply(cfg, db, call).db.procs[id].status == Completed
  {
    hide Transact;
    EveryActionEvolves(cfg, db, clock, call);
    hide Core, Keys, Apply, StepsEvolve;
  }

  /** Two sessions created over a run took two different completed sign-ins or sign-ups. */
  lemma SessionsNeedTheirOwnSignIn(cfg: Config, run: seq<Call>, now: Time, i: nat, j: nat)
    requires Ordered(run, now) && i < j < |run| && run[i].action.CreateSession? && run[j].action.CreateSession?
    requires Spends(cfg, After(cfg, run[..i]), run[i], run[i].action.grant) && Spends(cfg, After(cfg, run[..j]), run[j], run[j].action.grant)
    ensures var p, q := SpentProcess(After(cfg, run[..i]), run[i].now, run[i]), SpentProcess(After(cfg, run[..j]), run[j].now, run[j]);
      && p.Some? && q.Some? && p != q
      && p.value in After(cfg, run[..i]).procs
      && var row := After(cfg, run[..i]).procs[p.value]; row.status == Completed && !Sensitive(row.purpose)
  {
    hide Transact;
    var a, c := After(cfg, run[..i]), After(cfg, run[..j]);
    RunBetween(cfg, run, now, i, j);
    var b := After(cfg, run[..i + 1]);
    hide Inv, Apply, After, Evolved;
    RunEvolves(cfg, b, run[i].now, run[i + 1..j], run[j].now);
    SpentProcessStaysSpent(cfg, a, run[i].now, run[i], run[i].action.grant, c);
    SpendingIsBound(cfg, c, run[j], run[j].action.grant);
    SpendingIsBound(cfg, a, run[i], run[i].action.grant);
    SessionOrder(cfg, a, run[i]);
    hide Spends, SpentProcess, OrderOf, PurposePrincipal;
  }

  lemma SessionOrder(cfg: Config, db: DB, call: Call)
    requires call.action.CreateSession? && Transact(cfg, db, call.now, call.action).Ok?
    ensures OrderOf(db, call.action).Some? && !Sensitive(OrderOf(db, call.action).value.purpose)
  {
    hide ProcByGrant, ConsumeGrant;
  }
}
