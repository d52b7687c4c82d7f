/** Every transaction keeps the invariant, so it holds in every state a run of the service can reach. */
module Reachability {
  import opened Base
  import opened Store
  import opened Processes
  import opened Challenges
  import opened OAuth
  import opened Accounts
  import opened Totps
  import opened Sessions
  import opened Mails
  import opened CredentialOps
  import opened Cleanups
  import opened Protocol
  import opened Invariant
  import opened Quietness
  import opened QuietActions
  import opened FlowActions
  import opened Acceptance
  import opened Attempts
  import opened KeyActions

  /** The transactions that start a process, create a step or judge a proof. */
  predicate Noisy(a: Action) {
    a.Start? || a.CreateChallenge? || a.Attempt? || a.FinishProvider? || a.RejectProvider?
  }

  lemma OthersAreQuiet(cfg: Config, db: DB, call: Call)
    requires Rooted(db) && !Noisy(call.action)
    ensures Quiet(db, Apply(cfg, db, call).db)
  {
    hide Quiet, BeginProviderTx, ExecuteAll, SetPasswordTx, SetUsernameTx, RequestDeletionTx, PatchDeletionTx,
      CancelDeletionTx, DeleteDueTx, StartTotpTx, ConfirmTotpTx, DeleteTotpTx, RotateBackupCodesTx,
      CreateSessionTx, RefreshTx, RevokeSessionsTx, LogoutRefreshTx, StartPasswordResetTx,
      ConfirmPasswordResetTx, ChangeEmailTx, ConfirmEmailTx, PrepareIdentityTx, BeginLinkTx, FinishLinkTx,
      UnlinkIdentityTx, StartPasskeyTx, RegisterPasskeyTx, DeletePasskeyTx, SetBlockedTx;
    match call.action
    case BeginProvider(id, cid, flow, who, kind, token) =>
      BeginProviderQuiet(cfg, db, call.now, id, cid, flow, who, kind, token);
    case Cleanup => CleanupQuiet(cfg, db, call.now, STATEMENTS);
    case SetPassword(who, grant, password) => SetPasswordQuiet(cfg, db, call.now, who, grant, password);
    case SetUsername(who, username) => SetUsernameQuiet(cfg, db, call.now, who, username);
    case RequestDeletion(who, grant, shared, delay) => RequestDeletionQuiet(db, call.now, who, grant, shared, delay);
    case PatchDeletion(who, shared) => PatchDeletionQuiet(db, call.now, who, shared);
    case CancelDeletion(who) => CancelDeletionQuiet(db, call.now, who);
    case DeleteDue => DeleteDueQuiet(db, call.now);
    case StartTotp(who, grant) => StartTotpQuiet(db, call.now, who, grant);
    case ConfirmTotp(who, digits) => ConfirmTotpQuiet(cfg, db, call.now, who, digits);
    case DeleteTotp(who, grant) => DeleteTotpQuiet(db, call.now, who, grant);
    case RotateBackupCodes(who, grant) => RotateBackupCodesQuiet(db, call.now, who, grant);
    case CreateSession(grant, ttl) => CreateSessionQuiet(db, call.now, grant, ttl);
    case Refresh(session, refresh, ttl) => RefreshQuiet(db, call.now, session, refresh, ttl);
    case RevokeSessions(who, only) => RevokeQuiet(db, call.now, who, only, 0, 0);
    case LogoutRefresh(session, refresh) => RevokeQuiet(db, call.now, Anonymous, None, session, refresh);
    case StartPasswordReset(email, baseOk) => StartPasswordResetQuiet(cfg, db, call.now, email, baseOk);
    case ConfirmPasswordReset(link, password) => ConfirmPasswordResetQuiet(db, call.now, link, password);
    case ChangeEmail(who, grant, email, baseOk) => ChangeEmailQuiet(cfg, db, call.now, who, grant, email, baseOk);
    case ConfirmEmail(link, baseOk) => ConfirmEmailQuiet(db, call.now, link, baseOk);
    case PrepareIdentity(who, provider, redirect, libraryOk) =>
      PrepareIdentityQuiet(cfg, db, call.now, who, provider, redirect, libraryOk);
    case BeginLink(who, provider, state) => BeginLinkQuiet(cfg, db, call.now, who, provider, state);
    case FinishLink(who, grant, provider, subject) => FinishLinkQuiet(db, call.now, who, grant, provider, subject);
    case UnlinkIdentity(who, grant, provider) => UnlinkIdentityQuiet(db, call.now, who, grant, provider);
    case StartPasskey(who, grant, libraryOk) => StartPasskeyQuiet(cfg, db, call.now, who, grant, libraryOk);
    case RegisterPasskey(who, request, name, credential) =>
      RegisterPasskeyQuiet(cfg, db, call.now, who, request, name, credential);
    case DeletePasskey(who, grant, passkey) => DeletePasskeyQuiet(db, call.now, who, grant, passkey);
    case SetBlocked(account, blocked) => SetBlockedQuiet(db, account, blocked);
  }

  lemma InvRooted(cfg: Config, db: DB, clock: Time)
    requires Core(cfg, db, clock)
    ensures Rooted(db)
  {
    hide ProcsOk, OneEach, Budget, StepOk, StageOk;
  }

  // ---------- processes and steps ----------

  /** The part of the invariant about flows. */
  ghost predicate FlowsOk(cfg: Config, db: DB, clock: Time) {
    Core(cfg, db, clock) && StepKeysOk(db.steps, db.supply) && ProcKeysOk(db.procs, db.supply)
  }

  lemma QuietKeepsFlows(cfg: Config, db: DB, b: DB, clock: Time, now: Time)
    requires FlowsOk(cfg, db, clock) && clock <= now && Quiet(db, b)
    ensures FlowsOk(cfg, b, now)
  {
    QuietKeepsCore(cfg, db, b, clock, now);
    QuietKeepsSteps(db, b);
    CalmerKeepsProcKeys(db.procs, b.procs, db.supply, b.supply);
    hide Core, StepKeysOk, ProcKeysOk, QuietProcs, QuietSteps, QuietSignups, QuietTotp;
  }

  lemma StartKeepsFlows(cfg: Config, db: DB, clock: Time, now: Time, name: string, who: Principal)
    requires FlowsOk(cfg, db, clock) && clock <= now && StartTx(cfg, db, now, name, who).Ok?
    ensures FlowsOk(cfg, StartTx(cfg, db, now, name, who).value.db, now)
  {
    var b := StartTx(cfg, db, now, name, who).value.db;
    StartMakes(cfg, db, now, name, who);
    StartDraws(cfg, db, now, name, who);
    hide StartTx, Core, JustStarted;
    assert StepKeysOk(b.steps, b.supply);
    hide StepKeysOk;
    StartKeepsCore(cfg, db, b, clock, now);
    DrawnKeepsProcKeys(db, b, db.supply);
    hide ProcKeysOk, GrantDrawn;
  }

  lemma ProcKeysLater(procs: map<Id, Process>, n: Id, m: Id)
    requires ProcKeysOk(procs, n) && n <= m
    ensures ProcKeysOk(procs, m)
  {
  }

  lemma ChallengeKeepsFlows(cfg: Config, db: DB, clock: Time, now: Time, id: Id, flow: Id, kind: Kind, who: Principal,
                            options: OAuthOptions, code: Id, libraryOk: bool)
    requires FlowsOk(cfg, db, clock) && clock <= now
    requires CreateChallengeTx(cfg, db, now, id, flow, kind, who, options, code, libraryOk).Ok?
    ensures FlowsOk(cfg, CreateChallengeTx(cfg, db, now, id, flow, kind, who, options, code, libraryOk).value.db, now)
  {
    var b := CreateChallengeTx(cfg, db, now, id, flow, kind, who, options, code, libraryOk).value.db;
    CreateChallengeMakes(cfg, db, now, id, flow, kind, who, options, code, libraryOk);
    hide CreateChallengeTx, Core, StepKeysOk, ProcKeysOk;
    ChallengeKeepsCore(cfg, db, b, id, kind, clock, now);
    assert b.procs == db.procs && db.supply <= b.supply;
    hide StepAdded;
    ProcKeysLater(db.procs, db.supply, b.supply);
  }

  lemma AttemptKeepsFlows(cfg: Config, db: DB, clock: Time, now: Time, id: Id, cid: Id, flow: Id, who: Principal, proof: Proof)
    requires FlowsOk(cfg, db, clock) && clock <= now && Numbered(db.totp, db.supply)
    requires AttemptTx(cfg, db, now, id, cid, flow, who, proof).Ok?
    ensures FlowsOk(cfg, AttemptTx(cfg, db, now, id, cid, flow, who, proof).value.db, now)
  {
    hide AttemptTx, Core, StepKeysOk, ProcKeysOk, GrantDrawn;
    AttemptKeepsCore(cfg, db, clock, now, id, cid, flow, who, proof);
    AttemptDraws(cfg, db, now, id, cid, flow, who, proof);
    DrawnKeepsProcKeys(db, AttemptTx(cfg, db, now, id, cid, flow, who, proof).value.db, id);
  }

  lemma FinishKeepsFlows(cfg: Config, db: DB, clock: Time, now: Time, id: Id, cid: Id, flow: Id, who: Principal, kind: Kind, subject: string)
    requires FlowsOk(cfg, db, clock) && clock <= now && FinishProviderTx(cfg, db, now, id, cid, flow, who, kind, subject).Ok?
    ensures FlowsOk(cfg, FinishProviderTx(cfg, db, now, id, cid, flow, who, kind, subject).value.db, now)
  {
    hide FinishProviderTx, Core, StepKeysOk, ProcKeysOk, GrantDrawn;
    FinishKeepsCore(cfg, db, clock, now, id, cid, flow, who, kind, subject);
    FinishProviderDraws(cfg, db, now, id, cid, flow, who, kind, subject);
    DrawnKeepsProcKeys(db, FinishProviderTx(cfg, db, now, id, cid, flow, who, kind, subject).value.db, id);
  }

  lemma RejectKeepsFlows(cfg: Config, db: DB, clock: Time, now: Time, id: Id, cid: Id, flow: Id, who: Principal)
    requires FlowsOk(cfg, db, clock) && clock <= now && RejectProviderTx(cfg, db, now, id, cid, flow, who).Ok?
    ensures FlowsOk(cfg, RejectProviderTx(cfg, db, now, id, cid, flow, who).value.db, now)
  {
    hide Core, StepKeysOk, ProcKeysOk, GrantDrawn, PurposePrincipal, CountFailure, FailureAnswer;
    RejectKeepsCore(cfg, db, clock, now, id, cid, flow, who);
    CountDraws(cfg, db, id, cid);
    DrawnKeepsProcKeys(db, CountFailure(cfg, db, id, cid), id);
  }

  lemma FlowsLater(cfg: Config, db: DB, clock: Time, now: Time)
    requires FlowsOk(cfg, db, clock) && clock <= now
    ensures FlowsOk(cfg, db, now)
  {
    CoreLater(cfg, db, clock, now);
    hide Core;
  }

  lemma FlowsKept(cfg: Config, db: DB, clock: Time, call: Call)
    requires FlowsOk(cfg, db, clock) && clock <= call.now && Numbered(db.totp, db.supply)
    ensures FlowsOk(cfg, Apply(cfg, db, call).db, call.now)
  {
    hide *;
    FlowsLater(cfg, db, clock, call.now);
    if Noisy(call.action) {
      NoisyKeepsFlows(cfg, db, clock, call);
    } else {
      FlowsRooted(cfg, db, clock);
      OthersAreQuiet(cfg, db, call);
      QuietKeepsFlows(cfg, db, Apply(cfg, db, call).db, clock, call.now);
    }
  }

  lemma FlowsRooted(cfg: Config, db: DB, clock: Time)
    requires FlowsOk(cfg, db, clock)
    ensures Rooted(db)
  {
    hide Core, Rooted;
    InvRooted(cfg, db, clock);
  }

  lemma NoisyKeepsFlows(cfg: Config, db: DB, clock: Time, call: Call)
    requires FlowsOk(cfg, db, clock) && clock <= call.now && Numbered(db.totp, db.supply) && Noisy(call.action)
    ensures FlowsOk(cfg, Apply(cfg, db, call).db, call.now)
  {
    hide *;
    NoisyActions(call.action);
    var now := call.now;
    FlowsLater(cfg, db, clock, now);
    Dispatched(cfg, db, call);
    if Transact(cfg, db, now, call.action).Ok? {
      match call.action
      case Start(name, who) => StartKeepsFlows(cfg, db, clock, now, name, who);
      case CreateChallenge(id, flow, kind, who, options, code, libraryOk) =>
        ChallengeKeepsFlows(cfg, db, clock, now, id, flow, kind, who, options, code, libraryOk);
      case Attempt(id, cid, flow, who, proof) => AttemptKeepsFlows(cfg, db, clock, now, id, cid, flow, who, proof);
      case FinishProvider(id, cid, flow, who, kind, subject) =>
        FinishKeepsFlows(cfg, db, clock, now, id, cid, flow, who, kind, subject);
      case RejectProvider(id, cid, flow, who) => RejectKeepsFlows(cfg, db, clock, now, id, cid, flow, who);
    }
  }

  lemma NoisyActions(a: Action)
    requires Noisy(a)
    ensures a.Start? || a.CreateChallenge? || a.Attempt? || a.FinishProvider? || a.RejectProvider?
  {
  }

  // ---------- all tables, all runs ----------

  lemma KeysKept(cfg: Config, db: DB, clock: Time, call: Call)
    requires Inv(cfg, db, clock) && clock <= call.now
    ensures var b := Apply(cfg, db, call).db;
      && AccountsOk(b.accounts, b.supply) && SessionsOk(b.sessions, b.supply) && OAuthOk(b.oauth, b.supply)
      && ChangesOk(b.changes, b.supply) && ResetsOk(b.resets, b.supply)
  {
    hide Apply, Core;
    var b := Apply(cfg, db, call).db;
    hide AccountsOk, SessionsOk, ProcKeysOk, StepKeysOk, OAuthOk, ChangesOk, ResetsOk, Numbered, PasskeysOk, IdentitiesOk, BackupsOk;
    AccountsKept(cfg, db, clock, call);
    SessionsKept(cfg, db, call);
    StatesMove(cfg, db, call);
    DrawnKeepsOAuth(db, b);
    ChangesKept(cfg, db, call);
    ResetsKept(cfg, db, call);
  }

  lemma CredentialsKept(cfg: Config, db: DB, clock: Time, call: Call)
    requires Inv(cfg, db, clock)
    ensures var b := Apply(cfg, db, call).db;
      && Numbered(b.totp, b.supply) && PasskeysOk(b.passkeys, b.supply) && IdentitiesOk(b.identities, b.supply)
      && BackupsOk(b.backups, b.supply) && Numbered(b.deletions, b.supply)
  {
    hide Apply, Core;
    hide AccountsOk, SessionsOk, ProcKeysOk, StepKeysOk, OAuthOk, ChangesOk, ResetsOk, Numbered, PasskeysOk, IdentitiesOk, BackupsOk;
    TotpKept(cfg, db, call);
    PasskeysKept(cfg, db, call);
    IdentitiesKept(cfg, db, call);
    DeletionsKept(cfg, db, call);
  }

  lemma InvKept(cfg: Config, db: DB, clock: Time, call: Call)
    requires Inv(cfg, db, clock) && clock <= call.now
    ensures Inv(cfg, Apply(cfg, db, call).db, call.now)
  {
    hide Apply, Core;
    hide AccountsOk, SessionsOk, ProcKeysOk, StepKeysOk, OAuthOk, ChangesOk, ResetsOk, Numbered, PasskeysOk, IdentitiesOk, BackupsOk;
    FlowsKept(cfg, db, clock, call);
    KeysKept(cfg, db, clock, call);
    CredentialsKept(cfg, db, clock, call);
  }

  lemma InvFlows(cfg: Config, db: DB, clock: Time)
    requires Inv(cfg, db, clock)
    ensures FlowsOk(cfg, db, clock) && Numbered(db.totp, db.supply) && StepKeysOk(db.steps, db.supply)
  {
    hide Core, AccountsOk, SessionsOk, ProcKeysOk, StepKeysOk, OAuthOk, ChangesOk, ResetsOk, Numbered, PasskeysOk, IdentitiesOk, BackupsOk;
  }

  lemma InvLater(cfg: Config, db: DB, clock: Time, now: Time)
    requires Inv(cfg, db, clock) && clock <= now
    ensures Inv(cfg, db, now)
  {
    CoreLater(cfg, db, clock, now);
    hide Core, Keys;
  }

  lemma EmptyInv(cfg: Config, now: Time)
    ensures Inv(cfg, EMPTY, now)
  {
  }

  lemma {:induction false} InvThroughout(cfg: Config, db: DB, clock: Time, run: seq<Call>, now: Time)
    requires Inv(cfg, db, clock) && Follows(clock, run, now)
    ensures Inv(cfg, RunFrom(cfg, db, run), now)
    decreases |run|
  {
    hide Inv, Apply;
    if run == [] {
      InvLater(cfg, db, clock, now);
    } else {
      var n := |run| - 1;
      FollowsPrefix(clock, run, now);
      InvThroughout(cfg, db, clock, run[..n], run[n].now);
      InvKept(cfg, RunFrom(cfg, db, run[..n]), run[n].now, run[n]);
      InvLater(cfg, RunFrom(cfg, db, run), run[n].now, now);
    }
  }

  /** The invariant holds after every run of the service under a clock that never goes back. */
  lemma Reachable(cfg: Config, run: seq<Call>, now: Time)
    requires Ordered(run, now)
    ensures Inv(cfg, After(cfg, run), now)
  {
    hide Apply;
    var clock := if run == [] then now else run[0].now;
    EmptyInv(cfg, clock);
    InvThroughout(cfg, EMPTY, clock, run, now);
    hide Inv;
  }

  /** Two moments of one run: the state between the steps i and j, and what carries the first to the second. */
  lemma RunBetween(cfg: Config, run: seq<Call>, now: Time, i: nat, j: nat)
    requires Ordered(run, now) && i < j < |run|
    ensures Inv(cfg, After(cfg, run[..i]), run[i].now)
    ensures After(cfg, run[..i + 1]) == Apply(cfg, After(cfg, run[..i]), run[i]).db && Inv(cfg, After(cfg, run[..i + 1]), run[i].now)
    ensures After(cfg, run[..j]) == RunFrom(cfg, After(cfg, run[..i + 1]), run[i + 1..j])
    ensures Follows(run[i].now, run[i + 1..j], run[j].now)
    ensures Inv(cfg, After(cfg, run[..j]), run[j].now)
  {
    hide Inv, Apply;
    FollowsBetween(run, now, i, j);
    assert run[..i + 1][..i] == run[..i] && run[..i + 1] + run[i + 1..j] == run[..j];
    RunSplits(cfg, EMPTY, run[..i + 1], run[i + 1..j]);
    Reachable(cfg, run[..i], run[i].now);
    Reachable(cfg, run[..i + 1], run[i].now);
    Reachable(cfg, run[..j], run[j].now);
  }
}
