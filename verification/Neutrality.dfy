/** Cleanup changes no decision: a service that collects its garbage and one that keeps it answer alike. */
module Neutrality {
  import opened Base
  import opened Secrets
  import opened Store
  import opened Processes
  import opened Challenges
  import opened OAuth
  import opened Accounts
  import opened Totps
  import opened Sessions
  import opened Mails
  import opened CredentialOps
  import opened Cleanups
  import opened Protocol
  import opened Invariant
  import opened Quietness
  import opened QuietActions
  import opened Frames
  import opened KeyActions
  import opened Trimming
  import opened Links

  import opened Similarity
  import opened SimilarAccounts
  import opened SimilarSessions
  import opened SimilarFlows

  lemma SharedSimilar(cfg: Config, a: DB, b: DB, call: Call)
    requires Pair(cfg, a, b, call.now)
    requires call.action.SetUsername? || call.action.PatchDeletion? || call.action.CancelDeletion? || call.action.SetBlocked?
    ensures Similar(cfg, Transact(cfg, a, call.now, call.action), Transact(cfg, b, call.now, call.action), call.now)
  {
    hide *;
    Dispatched(cfg, a, call);
    Dispatched(cfg, b, call);
    PairTrims(cfg, a, b, call.now);
    var now, r, t := call.now, Transact(cfg, a, call.now, call.action), Transact(cfg, b, call.now, call.action);
    match call.action {
      case SetUsername(who, username) => PairView(cfg, a, b, now, who); SetUsernameAlike(cfg, a, b, now, who, username);
      case PatchDeletion(who, shared) => PairView(cfg, a, b, now, who); PatchDeletionAlike(a, b, now, who, shared);
      case CancelDeletion(who) => PairView(cfg, a, b, now, who); CancelDeletionAlike(a, b, now, who);
      case SetBlocked(account, blocked) =>
        PairView(cfg, a, b, now, Anonymous);
        TrimShares(cfg, a, b, now);
        SetBlockedAlike(a, b, now, account, blocked);
    }
    AlikeSimilar(cfg, a, b, r, t, now);
  }

  lemma PairTrims(cfg: Config, a: DB, b: DB, now: Time)
    requires Pair(cfg, a, b, now)
    ensures Trim(cfg, a, b, now)
  {
    hide Trim, Inv, Linked;
  }

  lemma EveryActionSimilar(cfg: Config, a: DB, b: DB, call: Call)
    requires Pair(cfg, a, b, call.now)
    requires call.action.ChangeEmail? && call.action.who.Bearer? ==> FreshChange(a, b, call.action.who.account)
    ensures Similar(cfg, Transact(cfg, a, call.now, call.action), Transact(cfg, b, call.now, call.action), call.now)
  {
    hide Pair, Similar, StartTx, CreateChallengeTx, AttemptTx, BeginProviderTx, FinishProviderTx,
      RejectProviderTx, CleanupTx, SetPasswordTx, SetUsernameTx, RequestDeletionTx, PatchDeletionTx,
      CancelDeletionTx, DeleteDueTx, StartTotpTx, ConfirmTotpTx, DeleteTotpTx, RotateBackupCodesTx,
      CreateSessionTx, RefreshTx, RevokeSessionsTx, LogoutRefreshTx, StartPasswordResetTx,
      ConfirmPasswordResetTx, ChangeEmailTx, ConfirmEmailTx, PrepareIdentityTx, BeginLinkTx, FinishLinkTx,
      UnlinkIdentityTx, StartPasskeyTx, RegisterPasskeyTx, DeletePasskeyTx, SetBlockedTx;
    var now := call.now;
    match call.action
    case Start(name, who) => StartSimilar(cfg, a, b, now, name, who);
    case CreateChallenge(id, flow, kind, who, options, code, libraryOk) =>
      CreateChallengeSimilar(cfg, a, b, now, id, flow, kind, who, options, code, libraryOk);
    case Attempt(id, cid, flow, who, proof) => AttemptSimilar(cfg, a, b, now, id, cid, flow, who, proof);
    case BeginProvider(id, cid, flow, who, kind, token) =>
      BeginProviderSimilar(cfg, a, b, now, id, cid, flow, who, kind, token);
    case FinishProvider(id, cid, flow, who, kind, subject) =>
      FinishProviderSimilar(cfg, a, b, now, id, cid, flow, who, kind, subject);
    case RejectProvider(id, cid, flow, who) => RejectSimilar(cfg, a, b, now, id, cid, flow, who);
    case Cleanup => CleanupSimilar(cfg, a, b, now);
    case SetPassword(who, grant, password) => SetPasswordSimilar(cfg, a, b, now, who, grant, password);
    case SetUsername(_, _) => SharedSimilar(cfg, a, b, call);
    case RequestDeletion(who, grant, shared, delay) => RequestDeletionSimilar(cfg, a, b, now, who, grant, shared, delay);
    case PatchDeletion(_, _) => SharedSimilar(cfg, a, b, call);
    case CancelDeletion(_) => SharedSimilar(cfg, a, b, call);
    case DeleteDue => DeleteDueSimilar(cfg, a, b, now);
    case StartTotp(who, grant) => StartTotpSimilar(cfg, a, b, now, who, grant);
    case ConfirmTotp(who, digits) => ConfirmTotpSimilar(cfg, a, b, now, who, digits);
    case DeleteTotp(who, grant) => DeleteTotpSimilar(cfg, a, b, now, who, grant);
    case RotateBackupCodes(who, grant) => RotateBackupCodesSimilar(cfg, a, b, now, who, grant);
    case CreateSession(grant, ttl) => CreateSessionSimilar(cfg, a, b, now, grant, ttl);
    case Refresh(session, refresh, ttl) => RefreshSimilar(cfg, a, b, now, session, refresh, ttl);
    case RevokeSessions(who, only) => RevokeSimilar(cfg, a, b, now, who, only);
    case LogoutRefresh(session, refresh) => LogoutSimilar(cfg, a, b, now, session, refresh);
    case StartPasswordReset(email, baseOk) => StartResetSimilar(cfg, a, b, now, email, baseOk);
    case ConfirmPasswordReset(link, password) => ConfirmResetSimilar(cfg, a, b, now, link, password);
    case ChangeEmail(who, grant, email, baseOk) => ChangeEmailSimilar(cfg, a, b, now, who, grant, email, baseOk);
    case ConfirmEmail(link, baseOk) => ConfirmEmailSimilar(cfg, a, b, now, link, baseOk);
    case PrepareIdentity(who, provider, redirect, libraryOk) =>
      PrepareIdentitySimilar(cfg, a, b, now, who, provider, redirect, libraryOk);
    case BeginLink(who, provider, state) => BeginLinkSimilar(cfg, a, b, now, who, provider, state);
    case FinishLink(who, grant, provider, subject) => FinishLinkSimilar(cfg, a, b, now, who, grant, provider, subject);
    case UnlinkIdentity(who, grant, provider) => UnlinkIdentitySimilar(cfg, a, b, now, who, grant, provider);
    case StartPasskey(who, grant, libraryOk) => StartPasskeySimilar(cfg, a, b, now, who, grant, libraryOk);
    case RegisterPasskey(who, request, name, credential) =>
      RegisterPasskeySimilar(cfg, a, b, now, who, request, name, credential);
    case DeletePasskey(who, grant, passkey) => DeletePasskeySimilar(cfg, a, b, now, who, grant, passkey);
    case SetBlocked(_, _) => SharedSimilar(cfg, a, b, call);
  }

  // ---------- cleaning up leaves nothing out but dead rows ----------

  lemma PurgeRequestTrims(cfg: Config, db: DB, now: Time, q: Statement)
    requires Rooted(db) && Drawn(db) && q != PurgeProcesses && q != PurgeSessions
    ensures Trim(cfg, db, Execute(cfg, db, now, q), now)
  {
    hide DropProcesses, DropSessions, TrimFlows, TrimRequests;
    RequestPurgesTrim(cfg, db, now, q);
    TrimItself(cfg, db, now);
    UnchangedFlows(cfg, db, Execute(cfg, db, now, q), now);
  }

  lemma RequestPurgesTrim(cfg: Config, db: DB, now: Time, q: Statement)
    requires q != PurgeProcesses && q != PurgeSessions
    ensures TrimRequests(db, Execute(cfg, db, now, q), now)
  {
  }

  lemma UnchangedFlows(cfg: Config, a: DB, b: DB, now: Time)
    requires TrimFlows(cfg, a, a, now)
    requires b.sessions == a.sessions && b.procs == a.procs && b.steps == a.steps && b.signups == a.signups
    ensures TrimFlows(cfg, a, b, now)
  {
    hide TrimSessions, TrimProcs, TrimSteps, TrimSignups;
  }

  lemma PurgeProcsTrims(cfg: Config, db: DB, now: Time)
    requires Linked(db) && Rooted(db) && Drawn(db)
    ensures Trim(cfg, db, DropProcesses(db, Uncollected(cfg, db.procs, now)), now)
  {
    hide Collectable, ActivationsLinked, RequestsLinked, TrimFlows, TrimRequests;
    PurgeProcsTrimsFlows(cfg, db, now);
    PurgeProcsTrimsRequests(cfg, db, now);
  }

  lemma PurgeProcsTrimsFlows(cfg: Config, db: DB, now: Time)
    requires Linked(db) && Rooted(db) && Drawn(db)
    ensures TrimFlows(cfg, db, DropProcesses(db, Uncollected(cfg, db.procs, now)), now)
  {
    hide Collectable, ActivationsLinked, RequestsLinked, OAuthLinked;
  }

  lemma PurgeProcsTrimsRequests(cfg: Config, db: DB, now: Time)
    requires Linked(db) && Rooted(db) && Drawn(db)
    ensures TrimRequests(db, DropProcesses(db, Uncollected(cfg, db.procs, now)), now)
  {
    hide Collectable, ActivationsLinked, RequestsLinked, Uncollected;
  }

  lemma PurgeSessTrims(cfg: Config, db: DB, now: Time)
    requires Linked(db) && Rooted(db) && Drawn(db)
    ensures Trim(cfg, db, DropSessions(db, Expired(db.sessions, now)), now)
  {
    hide Linked, Rooted, Drawn, WithoutSessionOrphans, CascadeProcesses, Trim, PreTrim;
    var gone := Expired(db.sessions, now);
    var left := map s | s in db.sessions && s !in gone :: db.sessions[s];
    TrimItself(cfg, db, now);
    TrimIsPreTrim(cfg, db, db, now);
    assert SessionsLost(db, db, db.sessions, left, now);
    hide SessionsLost;
    TrimLosesSessions(cfg, db, db, db.sessions, left, now);
    NoOrphans(db);
    NoCascade(db);
    assert db.(sessions := db.sessions) == db;
  }

  lemma ExecuteTrims(cfg: Config, db: DB, now: Time, q: Statement)
    requires Linked(db) && Rooted(db) && Drawn(db)
    ensures Trim(cfg, db, Execute(cfg, db, now, q), now)
  {
    hide Linked, Rooted, Drawn, DropSessions, DropProcesses, Trim;
    if q == PurgeProcesses {
      PurgeProcsTrims(cfg, db, now);
    } else if q == PurgeSessions {
      PurgeSessTrims(cfg, db, now);
    } else {
      PurgeRequestTrims(cfg, db, now, q);
    }
  }

  lemma TrimTransitive(cfg: Config, a: DB, b: DB, c: DB, now: Time)
    requires Trim(cfg, a, b, now) && Trim(cfg, b, c, now)
    ensures Trim(cfg, a, c, now)
  {
    hide TrimFlows, TrimRequests, Drawn;
    FlowsTransitive(cfg, a, b, c, now);
    RequestsTransitive(cfg, a, b, c, now);
  }

  lemma FlowsTransitive(cfg: Config, a: DB, b: DB, c: DB, now: Time)
    requires SameShared(a, b) && TrimFlows(cfg, a, b, now) && TrimFlows(cfg, b, c, now)
    ensures TrimFlows(cfg, a, c, now)
  {
    hide Collectable;
  }

  lemma RequestsTransitive(cfg: Config, a: DB, b: DB, c: DB, now: Time)
    requires Trim(cfg, a, b, now) && Trim(cfg, b, c, now)
    ensures TrimRequests(a, c, now)
  {
    hide TrimOAuth, TrimActivations, TrimPasskeyRequests, TrimProcs, TrimSignups, Drawn;
    var n := a.supply;
    OAuthTransitive(a.oauth, b.oauth, c.oauth, b.steps.Keys, c.steps.Keys, b.sessions.Keys, c.sessions.Keys, n, now);
    SetupsTransitive(a.activations, b.activations, c.activations, a.passkeyRequests, b.passkeyRequests, c.passkeyRequests,
                     b.sessions.Keys, c.sessions.Keys, n, now);
  }

  lemma OAuthTransitive(a: map<Digest, OAuthRequest>, b: map<Digest, OAuthRequest>, c: map<Digest, OAuthRequest>,
                        steps: set<Id>, steps': set<Id>, sessions: set<Id>, sessions': set<Id>, n: Id, now: Time)
    requires TrimOAuth(a, b, steps, sessions, n, now) && TrimOAuth(b, c, steps', sessions', n, now)
    requires steps' <= steps && sessions' <= sessions
    ensures TrimOAuth(a, c, steps', sessions', n, now)
  {
  }

  lemma SetupsTransitive(a: map<Id, Activation>, b: map<Id, Activation>, c: map<Id, Activation>,
                         d: map<Id, PasskeyRequest>, e: map<Id, PasskeyRequest>, f: map<Id, PasskeyRequest>,
                         sessions: set<Id>, sessions': set<Id>, n: Id, now: Time)
    requires TrimActivations(a, b, sessions, n, now) && TrimActivations(b, c, sessions', n, now)
    requires TrimPasskeyRequests(d, e, sessions, n, now) && TrimPasskeyRequests(e, f, sessions', n, now)
    requires sessions' <= sessions
    ensures TrimActivations(a, c, sessions', n, now) && TrimPasskeyRequests(d, f, sessions', n, now)
  {
  }

  lemma DrawnAfter(cfg: Config, db: DB, now: Time, qs: seq<Statement>)
    requires Rooted(db) && Drawn(db)
    ensures Drawn(ExecuteAll(cfg, db, now, qs))
  {
    hide ExecuteAll, Rooted;
    CleanupShrinks(cfg, db, now, qs);
    CleanupQuiet(cfg, db, now, qs);
    FrameExecuteAll(cfg, db, now, qs);
    assert Quiet(db, ExecuteAll(cfg, db, now, qs));
  }

  lemma {:induction false} CleanupTrimsAway(cfg: Config, db: DB, now: Time, qs: seq<Statement>)
    requires Linked(db) && Rooted(db) && Drawn(db)
    ensures Trim(cfg, db, ExecuteAll(cfg, db, now, qs), now)
  {
    hide Linked, Rooted, Drawn, Execute, Trim, Quiet;
    if qs == [] {
      TrimItself(cfg, db, now);
    } else {
      var m := qs[..|qs| - 1];
      var d := ExecuteAll(cfg, db, now, m);
      CleanupTrimsAway(cfg, db, now, m);
      CleanupKeepsLinks(cfg, db, now, m);
      CleanupQuiet(cfg, db, now, m);
      QuietRooted(db, d);
      DrawnAfter(cfg, db, now, m);
      ExecuteTrims(cfg, d, now, qs[|qs| - 1]);
      TrimTransitive(cfg, db, d, Execute(cfg, d, now, qs[|qs| - 1]), now);
    }
  }
}
