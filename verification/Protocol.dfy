/** The engine as a transition system: one transaction a step, and runs of them. */
module Protocol {
  import opened Base
  import opened Store
  import opened Answers
  import opened Processes
  import opened Challenges
  import opened OAuth
  import opened Accounts
  import opened Totps
  import opened Sessions
  import opened Mails
  import opened CredentialOps
  import opened Cleanups

  /** Every transaction a client, a worker or an operator can run; oracle answers are arguments. */
  datatype Action =
    | Start(name: string, who: Principal)
    | CreateChallenge(id: Id, flow: Id, kind: Kind, who: Principal, options: OAuthOptions, code: Id, libraryOk: bool)
    | Attempt(id: Id, cid: Id, flow: Id, who: Principal, proof: Proof)
    | BeginProvider(id: Id, cid: Id, flow: Id, who: Principal, kind: Kind, token: ProviderProof)
    | FinishProvider(id: Id, cid: Id, flow: Id, who: Principal, kind: Kind, subject: string)
    | RejectProvider(id: Id, cid: Id, flow: Id, who: Principal)
    | Cleanup
    | SetPassword(who: Principal, grant: Id, password: Store.Password)
    | SetUsername(who: Principal, username: string)
    | RequestDeletion(who: Principal, grant: Id, shared: bool, delay: int)
    | PatchDeletion(who: Principal, shared: bool)
    | CancelDeletion(who: Principal)
    | DeleteDue
    | StartTotp(who: Principal, grant: Id)
    | ConfirmTotp(who: Principal, digits: string)
    | DeleteTotp(who: Principal, grant: Id)
    | RotateBackupCodes(who: Principal, grant: Id)
    | CreateSession(grant: Id, ttl: int)
    | Refresh(session: Id, refresh: Id, ttl: int)
    | RevokeSessions(who: Principal, only: Option<Id>)
    | LogoutRefresh(session: Id, refresh: Id)
    | StartPasswordReset(email: string, baseOk: bool)
    | ConfirmPasswordReset(link: Id, password: Store.Password)
    | ChangeEmail(who: Principal, grant: Id, email: string, baseOk: bool)
    | ConfirmEmail(link: Id, baseOk: bool)
    | PrepareIdentity(who: Principal, provider: Provider, redirect: string, libraryOk: bool)
    | BeginLink(who: Principal, provider: Provider, state: Id)
    | FinishLink(who: Principal, grant: Id, provider: Provider, subject: string)
    | UnlinkIdentity(who: Principal, grant: Id, provider: Provider)
    | StartPasskey(who: Principal, grant: Id, libraryOk: bool)
    | RegisterPasskey(who: Principal, request: Id, name: string, credential: Option<Id>)
    | DeletePasskey(who: Principal, grant: Id, passkey: Id)
    | SetBlocked(account: Id, blocked: bool)

  /** An operator blocks or unblocks an account directly in the table. */
  function SetBlockedTx(db: DB, account: Id, blocked: bool): Outcome {
    if account in db.accounts then Ok(Commit(SetAccount(db, account, db.accounts[account].(blocked := blocked)), Done))
    else Ok(Commit(db, Done))
  }

  function Transact(cfg: Config, db: DB, now: Time, a: Action): Outcome {
    match a
    case Start(name, who) => StartTx(cfg, db, now, name, who)
    case CreateChallenge(id, flow, kind, who, options, code, libraryOk) =>
      CreateChallengeTx(cfg, db, now, id, flow, kind, who, options, code, libraryOk)
    case Attempt(id, cid, flow, who, proof) => AttemptTx(cfg, db, now, id, cid, flow, who, proof)
    case BeginProvider(id, cid, flow, who, kind, token) => BeginProviderTx(cfg, db, now, id, cid, flow, who, kind, token)
    case FinishProvider(id, cid, flow, who, kind, subject) => FinishProviderTx(cfg, db, now, id, cid, flow, who, kind, subject)
    case RejectProvider(id, cid, flow, who) => RejectProviderTx(cfg, db, now, id, cid, flow, who)
    case Cleanup => CleanupTx(cfg, db, now)
    case SetPassword(who, grant, password) => SetPasswordTx(cfg, db, now, who, grant, password)
    case SetUsername(who, username) => SetUsernameTx(cfg, db, now, who, username)
    case RequestDeletion(who, grant, shared, delay) => RequestDeletionTx(db, now, who, grant, shared, delay)
    case PatchDeletion(who, shared) => PatchDeletionTx(db, now, who, shared)
    case CancelDeletion(who) => CancelDeletionTx(db, now, who)
    case DeleteDue => DeleteDueTx(db, now)
    case StartTotp(who, grant) => StartTotpTx(db, now, who, grant)
    case ConfirmTotp(who, digits) => ConfirmTotpTx(cfg, db, now, who, digits)
    case DeleteTotp(who, grant) => DeleteTotpTx(db, now, who, grant)
    case RotateBackupCodes(who, grant) => RotateBackupCodesTx(db, now, who, grant)
    case CreateSession(grant, ttl) => CreateSessionTx(db, now, grant, ttl)
    case Refresh(session, refresh, ttl) => RefreshTx(db, now, session, refresh, ttl)
    case RevokeSessions(who, only) => RevokeSessionsTx(db, now, who, only)
    case LogoutRefresh(session, refresh) => LogoutRefreshTx(db, session, refresh)
    case StartPasswordReset(email, baseOk) => StartPasswordResetTx(cfg, db, now, email, baseOk)
    case ConfirmPasswordReset(link, password) => ConfirmPasswordResetTx(db, now, link, password)
    case ChangeEmail(who, grant, email, baseOk) => ChangeEmailTx(cfg, db, now, who, grant, email, baseOk)
    case ConfirmEmail(link, baseOk) => ConfirmEmailTx(db, now, link, baseOk)
    case PrepareIdentity(who, provider, redirect, libraryOk) => PrepareIdentityTx(cfg, db, now, who, provider, redirect, libraryOk)
    case BeginLink(who, provider, state) => BeginLinkTx(cfg, db, now, who, provider, state)
    case FinishLink(who, grant, provider, subject) => FinishLinkTx(db, now, who, grant, provider, subject)
    case UnlinkIdentity(who, grant, provider) => UnlinkIdentityTx(db, now, who, grant, provider)
    case StartPasskey(who, grant, libraryOk) => StartPasskeyTx(cfg, db, now, who, grant, libraryOk)
    case RegisterPasskey(who, request, name, credential) => RegisterPasskeyTx(cfg, db, now, who, request, name, credential)
    case DeletePasskey(who, grant, passkey) => DeletePasskeyTx(db, now, who, grant, passkey)
    case SetBlocked(account, blocked) => SetBlockedTx(db, account, blocked)
  }

  datatype Call = Call(now: Time, action: Action)

  function Apply(cfg: Config, db: DB, call: Call): Commit {
    Settle(db, Transact(cfg, db, call.now, call.action))
  }

  // What a call does, without looking into the transactions.
  lemma Dispatched(cfg: Config, db: DB, call: Call)
    ensures var r := Transact(cfg, db, call.now, call.action);
      && Apply(cfg, db, call) == Settle(db, r)
      && (r.Ok? ==> Apply(cfg, db, call) == r.value) && (r.Err? ==> Apply(cfg, db, call) == Commit(db, Rejected(r.error)))
    ensures var r, now := Transact(cfg, db, call.now, call.action), call.now;
      match call.action
      case Start(name, who) => r == StartTx(cfg, db, now, name, who)
      case CreateChallenge(id, flow, kind, who, options, code, libraryOk) => r == CreateChallengeTx(cfg, db, now, id, flow, kind, who, options, code, libraryOk)
      case Attempt(id, cid, flow, who, proof) => r == AttemptTx(cfg, db, now, id, cid, flow, who, proof)
      case BeginProvider(id, cid, flow, who, kind, token) => r == BeginProviderTx(cfg, db, now, id, cid, flow, who, kind, token)
      case FinishProvider(id, cid, flow, who, kind, subject) => r == FinishProviderTx(cfg, db, now, id, cid, flow, who, kind, subject)
      case RejectProvider(id, cid, flow, who) => r == RejectProviderTx(cfg, db, now, id, cid, flow, who)
      case Cleanup => r == CleanupTx(cfg, db, now)
      case SetPassword(who, grant, password) => r == SetPasswordTx(cfg, db, now, who, grant, password)
      case SetUsername(who, username) => r == SetUsernameTx(cfg, db, now, who, username)
      case RequestDeletion(who, grant, shared, delay) => r == RequestDeletionTx(db, now, who, grant, shared, delay)
      case PatchDeletion(who, shared) => r == PatchDeletionTx(db, now, who, shared)
      case CancelDeletion(who) => r == CancelDeletionTx(db, now, who)
      case DeleteDue => r == DeleteDueTx(db, now)
      case StartTotp(who, grant) => r == StartTotpTx(db, now, who, grant)
      case ConfirmTotp(who, digits) => r == ConfirmTotpTx(cfg, db, now, who, digits)
      case DeleteTotp(who, grant) => r == DeleteTotpTx(db, now, who, grant)
      case RotateBackupCodes(who, grant) => r == RotateBackupCodesTx(db, now, who, grant)
      case CreateSession(grant, ttl) => r == CreateSessionTx(db, now, grant, ttl)
      case Refresh(session, refresh, ttl) => r == RefreshTx(db, now, session, refresh, ttl)
      case RevokeSessions(who, only) => r == RevokeSessionsTx(db, now, who, only)
      case LogoutRefresh(session, refresh) => r == LogoutRefreshTx(db, session, refresh)
      case StartPasswordReset(email, baseOk) => r == StartPasswordResetTx(cfg, db, now, email, baseOk)
      case ConfirmPasswordReset(link, password) => r == ConfirmPasswordResetTx(db, now, link, password)
      case ChangeEmail(who, grant, email, baseOk) => r == ChangeEmailTx(cfg, db, now, who, grant, email, baseOk)
      case ConfirmEmail(link, baseOk) => r == ConfirmEmailTx(db, now, link, baseOk)
      case PrepareIdentity(who, provider, redirect, libraryOk) => r == PrepareIdentityTx(cfg, db, now, who, provider, redirect, libraryOk)
      case BeginLink(who, provider, state) => r == BeginLinkTx(cfg, db, now, who, provider, state)
      case FinishLink(who, grant, provider, subject) => r == FinishLinkTx(db, now, who, grant, provider, subject)
      case UnlinkIdentity(who, grant, provider) => r == UnlinkIdentityTx(db, now, who, grant, provider)
      case StartPasskey(who, grant, libraryOk) => r == StartPasskeyTx(cfg, db, now, who, grant, libraryOk)
      case RegisterPasskey(who, request, name, credential) => r == RegisterPasskeyTx(cfg, db, now, who, request, name, credential)
      case DeletePasskey(who, grant, passkey) => r == DeletePasskeyTx(db, now, who, grant, passkey)
      case SetBlocked(account, blocked) => r == SetBlockedTx(db, account, blocked)
  {
    hide AttemptTx, BeginLinkTx, BeginProviderTx, CancelDeletionTx, ChangeEmailTx, CleanupTx, ConfirmEmailTx, ConfirmPasswordResetTx, ConfirmTotpTx, CreateChallengeTx, CreateSessionTx, DeleteDueTx, DeletePasskeyTx, DeleteTotpTx, FinishLinkTx, FinishProviderTx, LogoutRefreshTx, PatchDeletionTx, PrepareIdentityTx, RefreshTx, RegisterPasskeyTx, RejectProviderTx, RequestDeletionTx, RevokeSessionsTx, RotateBackupCodesTx, SetBlockedTx, SetPasswordTx, SetUsernameTx, StartPasskeyTx, StartPasswordResetTx, StartTotpTx, StartTx, UnlinkIdentityTx;
  }

  /** The state after a run from db. */
  function RunFrom(cfg: Config, db: DB, run: seq<Call>): DB {
    if run == [] then db else Apply(cfg, RunFrom(cfg, db, run[..|run| - 1]), run[|run| - 1]).db
  }

  /** The state after a run of an initially empty service. */
  function After(cfg: Config, run: seq<Call>): DB {
    RunFrom(cfg, EMPTY, run)
  }

  /** A clock that never goes back, ending no later than now. */
  predicate Ordered(run: seq<Call>, now: Time) {
    && (forall i, j | 0 <= i <= j < |run| :: run[i].now <= run[j].now)
    && (forall i | 0 <= i < |run| :: run[i].now <= now)
  }

  lemma OrderedPrefix(run: seq<Call>, now: Time, n: nat)
    requires Ordered(run, now) && n < |run|
    ensures Ordered(run[..n], run[n].now)
  {
  }

  /** A run that begins no earlier than the clock. */
  predicate Follows(clock: Time, run: seq<Call>, now: Time) {
    Ordered(run, now) && clock <= now && forall i | 0 <= i < |run| :: clock <= run[i].now
  }

  lemma FollowsPrefix(clock: Time, run: seq<Call>, now: Time)
    requires Follows(clock, run, now) && run != []
    ensures var n := |run| - 1; Follows(clock, run[..n], run[n].now) && run[n].now <= now
  {
  }

  lemma FollowsBetween(run: seq<Call>, now: Time, i: nat, j: nat)
    requires Ordered(run, now) && i < j < |run|
    ensures Follows(run[i].now, run[i + 1..j], run[j].now)
    ensures Ordered(run[..i], run[i].now) && Ordered(run[..i + 1], run[i].now) && Ordered(run[..j], run[j].now)
  {
    assert forall k | i < k < j :: run[k] == run[i + 1..j][k - i - 1];
  }

  lemma {:induction false} RunSplits(cfg: Config, db: DB, a: seq<Call>, b: seq<Call>)
    ensures RunFrom(cfg, db, a + b) == RunFrom(cfg, RunFrom(cfg, db, a), b)
    decreases |b|
  {
    hide Apply;
    if b == [] {
      assert a + b == a;
    } else {
      var r, n := a + b, |b| - 1;
      assert r[..|r| - 1] == a + b[..n];
      assert r[|r| - 1] == b[n];
      RunSplits(cfg, db, a, b[..n]);
    }
  }
}
