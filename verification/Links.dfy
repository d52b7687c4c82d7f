/** Rows that hang on a session or a step: none is left without its parent, by any transaction. */
module Links {
  import opened Base
  import opened Secrets
  import opened Store
  import opened Answers
  import opened Processes
  import opened Challenges
  import opened OAuth
  import opened Accounts
  import opened Totps
  import opened Sessions
  import opened Mails
  import opened CredentialOps
  import opened Cleanups
  import opened Protocol
  import opened Invariant
  import opened Frames
  import opened FlowActions
  import opened Acceptance
  import opened Attempts
  import opened KeyActions
  import opened Reachability
  import opened Evolution
  import opened Trust

  ghost predicate ProcsLinked(procs: map<Id, Process>, sessions: set<Id>) {
    forall p | p in procs :: procs[p].session.Some? ==> procs[p].session.value in sessions
  }

  ghost predicate OAuthLinked(oauth: map<Digest, OAuthRequest>, steps: set<Id>, sessions: set<Id>) {
    forall o | o in oauth ::
      (oauth[o].step.Some? ==> oauth[o].step.value in steps) && (oauth[o].session.Some? ==> oauth[o].session.value in sessions)
  }

  ghost predicate ActivationsLinked(activations: map<Id, Activation>, sessions: set<Id>) {
    forall t | t in activations :: activations[t].session in sessions
  }

  ghost predicate RequestsLinked(requests: map<Id, PasskeyRequest>, sessions: set<Id>) {
    forall r | r in requests :: requests[r].session in sessions
  }

  ghost predicate Linked(db: DB) {
    && ProcsLinked(db.procs, db.sessions.Keys)
    && OAuthLinked(db.oauth, db.steps.Keys, db.sessions.Keys)
    && ActivationsLinked(db.activations, db.sessions.Keys)
    && RequestsLinked(db.passkeyRequests, db.sessions.Keys)
  }

  // ---------- dropping cascades ----------

  lemma CascadeLinks(db: DB)
    ensures Linked(CascadeSessions(db))
  {
  }

  lemma DropSessionsLinks(db: DB, gone: set<Id>)
    ensures Linked(DropSessions(db, gone))
  {
    hide Linked, CascadeSessions;
    CascadeLinks(db.(sessions := map s | s in db.sessions && s !in gone :: db.sessions[s]));
  }

  lemma DropProcessesKeepsLinks(db: DB, keep: map<Id, Process>)
    requires Linked(db) && Within(keep, db.procs)
    ensures Linked(DropProcesses(db, keep))
  {
  }

  lemma ExecuteKeepsLinks(cfg: Config, db: DB, now: Time, q: Statement)
    requires Linked(db)
    ensures Linked(Execute(cfg, db, now, q))
  {
    if q == PurgeProcesses {
      hide Linked, DropProcesses;
      DropProcessesKeepsLinks(db, Uncollected(cfg, db.procs, now));
    } else if q == PurgeSessions {
      hide Linked, CascadeSessions;
      CascadeLinks(db.(sessions := map s | s in db.sessions && s !in Expired(db.sessions, now) :: db.sessions[s]));
    } else {
      hide DropProcesses, DropSessions;
    }
  }

  lemma {:induction false} CleanupKeepsLinks(cfg: Config, db: DB, now: Time, qs: seq<Statement>)
    requires Linked(db)
    ensures Linked(ExecuteAll(cfg, db, now, qs))
  {
    hide Execute, Linked;
    if qs != [] {
      CleanupKeepsLinks(cfg, db, now, qs[..|qs| - 1]);
      ExecuteKeepsLinks(cfg, ExecuteAll(cfg, db, now, qs[..|qs| - 1]), now, qs[|qs| - 1]);
    }
  }

  lemma ReplacePasswordLinks(db: DB, now: Time, account: Id, password: Store.Password, keep: set<Id>)
    requires account in db.accounts
    ensures var r := ReplacePassword(db, now, account, password, keep); r.Ok? && Linked(r.value.db)
  {
    hide Linked, CascadeSessions;
    var d := Notify(Invalidate(StorePassword(db, account, password), account, now), account, PasswordChanged);
    CascadeLinks(d.(sessions := map s | s in d.sessions && s !in SessionsOf(d, account) - keep :: d.sessions[s]));
  }

  // ---------- a transaction that drops nothing ----------

  ghost predicate ParentsStay(a: DB, b: DB) {
    (forall s | s in a.sessions :: s in b.sessions) && (forall s | s in a.steps :: s in b.steps)
  }

  ghost predicate NewProcsLinked(a: DB, b: DB) {
    forall p | p in b.procs ::
      || (p in a.procs && b.procs[p].session == a.procs[p].session)
      || (b.procs[p].session.Some? ==> b.procs[p].session.value in b.sessions)
  }

  ghost predicate NewOAuthLinked(a: DB, b: DB) {
    forall o | o in b.oauth ::
      || (o in a.oauth && b.oauth[o] == a.oauth[o])
      || OAuthHasParent(b.oauth[o], b.steps, b.sessions)
  }

  ghost predicate NewSetupsLinked(a: DB, b: DB) {
    && (forall t | t in b.activations :: (t in a.activations && b.activations[t] == a.activations[t]) || b.activations[t].session in b.sessions)
    && (forall r | r in b.passkeyRequests ::
          (r in a.passkeyRequests && b.passkeyRequests[r] == a.passkeyRequests[r]) || b.passkeyRequests[r].session in b.sessions)
  }

  lemma GrowingKeepsLinks(a: DB, b: DB)
    requires Linked(a) && ParentsStay(a, b) && NewProcsLinked(a, b) && NewOAuthLinked(a, b) && NewSetupsLinked(a, b)
    ensures Linked(b)
  {
  }

  // ---------- parents stay ----------

  lemma SessionsStay(cfg: Config, db: DB, call: Call)
    requires SessionsOk(db.sessions, db.supply) && !Drops(call.action)
    ensures forall s | s in db.sessions :: s in Apply(cfg, db, call).db.sessions
  {
    hide SessionsOk, CreateSessionTx, RefreshTx, AcceptsRefresh;
    if call.action.CreateSession? {
      if Transact(cfg, db, call.now, call.action).Ok? {
        CreateSessionIssues(db, call.now, call.action.grant, call.action.ttl);
      }
    } else if call.action.Refresh? {
      if Transact(cfg, db, call.now, call.action).Ok? {
        RefreshIssues(db, call.now, call.action.session, call.action.refresh, call.action.ttl);
      }
    } else {
      EveryActionFramed(cfg, db, call);
      hide Transact;
    }
  }

  lemma StepsStay(cfg: Config, db: DB, clock: Time, call: Call)
    requires FlowsOk(cfg, db, clock) && clock <= call.now && Numbered(db.totp, db.supply) && !Drops(call.action)
    ensures forall s | s in db.steps :: s in Apply(cfg, db, call).db.steps
  {
    var now, b := call.now, Apply(cfg, db, call).db;
    hide Core, StepKeysOk, ProcKeysOk, Numbered, CreateChallengeTx, AttemptTx, FinishProviderTx, RejectProviderTx, Worked, CancelPending;
    if !WritesSteps(call.action) {
      EveryActionFramed(cfg, db, call);
      hide Transact;
    } else if Transact(cfg, db, now, call.action).Ok? {
      match call.action
      case CreateChallenge(id, flow, kind, who, options, code, libraryOk) =>
        CreateChallengeMakes(cfg, db, now, id, flow, kind, who, options, code, libraryOk);
        AddedStepStays(db, b, id, kind);
      case Attempt(id, cid, flow, who, proof) =>
        AttemptKeepsCore(cfg, db, clock, now, id, cid, flow, who, proof);
        WorkedStepsStay(cfg, db, b, id, cid, now);
      case FinishProvider(id, cid, flow, who, kind, subject) =>
        FinishKeepsCore(cfg, db, clock, now, id, cid, flow, who, kind, subject);
        WorkedStepsStay(cfg, db, b, id, cid, now);
      case RejectProvider(id, cid, flow, who) =>
        RejectKeepsCore(cfg, db, clock, now, id, cid, flow, who);
        WorkedStepsStay(cfg, db, b, id, cid, now);
    } else {
      hide Transact;
    }
  }

  lemma AddedStepStays(a: DB, b: DB, id: Id, kind: Kind)
    requires StepAdded(a, b, id, kind)
    ensures forall s | s in a.steps :: s in b.steps
  {
  }

  lemma WorkedStepsStay(cfg: Config, a: DB, b: DB, id: Id, cid: Id, now: Time)
    requires Worked(cfg, a, b, id, cid, now)
    ensures forall s | s in a.steps :: s in b.steps
  {
    hide Core, Moved, StepKeysOk;
  }

  // ---------- new children hang on something ----------

  lemma StartLinks(cfg: Config, db: DB, now: Time, name: string, who: Principal)
    requires StartTx(cfg, db, now, name, who).Ok?
    ensures var b := StartTx(cfg, db, now, name, who).value.db;
      db.supply in b.procs && (b.procs[db.supply].session.Some? ==> b.procs[db.supply].session.value in db.sessions)
  {
    hide Reusable, Next;
    StartDecides(cfg, db, now, name, who);
    assert Sensitive(ParsePurpose(name).value) ==> who.Bearer? && who.session in db.sessions;
    hide StartTx, ParsePurpose, PurposePrincipal;
  }

  lemma NewProcsHang(cfg: Config, db: DB, clock: Time, call: Call)
    requires FlowsOk(cfg, db, clock) && clock <= call.now && Numbered(db.totp, db.supply)
    requires forall s | s in db.sessions :: s in Apply(cfg, db, call).db.sessions
    ensures NewProcsLinked(db, Apply(cfg, db, call).db)
  {
    var b := Apply(cfg, db, call).db;
    hide FlowsOk, Numbered, Apply, Transact, StepsEvolve;
    EveryActionEvolves(cfg, db, clock, call);
    forall p | p in b.procs
      ensures (p in db.procs && b.procs[p].session == db.procs[p].session) || (b.procs[p].session.Some? ==> b.procs[p].session.value in b.sessions)
    {
      if p !in db.procs {
        NewProcessIsStarted(cfg, db, clock, call, p);
        StartedRow(cfg, db, call);
      }
    }
  }

  lemma StartedRow(cfg: Config, db: DB, call: Call)
    requires call.action.Start? && Transact(cfg, db, call.now, call.action).Ok?
    ensures var b := Apply(cfg, db, call).db;
      db.supply in b.procs && (b.procs[db.supply].session.Some? ==> b.procs[db.supply].session.value in db.sessions)
  {
    hide StartTx;
    StartLinks(cfg, db, call.now, call.action.name, call.action.who);
  }

  lemma CreateChallengeLinks(cfg: Config, db: DB, now: Time, id: Id, flow: Id, kind: Kind, who: Principal, options: OAuthOptions, code: Id,
                             libraryOk: bool)
    requires OAuthOk(db.oauth, db.supply)
    ensures NewOAuthLinked(db, Settle(db, CreateChallengeTx(cfg, db, now, id, flow, kind, who, options, code, libraryOk)).db)
  {
    hide PurposePrincipal, Next, CancelPending, Earlier, CreateOAuth, OAuthOk;
    if CreateChallengeTx(cfg, db, now, id, flow, kind, who, options, code, libraryOk).Ok? {
      var p := db.procs[id];
      var step := Step(id, kind, Pending, 0, Earlier(now + cfg.challengeTTL, p.expires), None, NoDetail);
      var d := db.(steps := CancelPending(db.steps, id, Some(kind), None)[db.supply := step], supply := db.supply + 1);
      if IsProvider(kind) {
        CreateOAuthLinks(cfg, d, db.supply, step, flow, options, libraryOk);
      }
    }
  }

  lemma CreateOAuthLinks(cfg: Config, d: DB, cid: Id, step: Step, flow: Id, o: OAuthOptions, libraryOk: bool)
    requires IsProvider(step.kind) && cid in d.steps
    ensures NewOAuthLinked(d, Settle(d, CreateOAuth(cfg, d, cid, step, flow, o, libraryOk)).db)
  {
    hide ProviderOf;
  }

  lemma PrepareIdentityLinks(cfg: Config, db: DB, now: Time, who: Principal, provider: Provider, redirect: string, libraryOk: bool)
    ensures NewOAuthLinked(db, Settle(db, PrepareIdentityTx(cfg, db, now, who, provider, redirect, libraryOk)).db)
  {
  }

  lemma SpentStatesLink(cfg: Config, db: DB, now: Time, id: Id, cid: Id, flow: Id, who: Principal, kind: Kind, token: ProviderProof,
                        provider: Provider, state: Id)
    ensures NewOAuthLinked(db, Settle(db, BeginProviderTx(cfg, db, now, id, cid, flow, who, kind, token)).db)
    ensures NewOAuthLinked(db, Settle(db, BeginLinkTx(cfg, db, now, who, provider, state)).db)
  {
    hide Load, Next, OAuthHasParent;
  }

  lemma UntouchedHang(cfg: Config, db: DB, call: Call)
    ensures !WritesOauth(call.action) ==> NewOAuthLinked(db, Apply(cfg, db, call).db)
    ensures !WritesActivations(call.action) && !WritesPasskeyRequests(call.action) ==> NewSetupsLinked(db, Apply(cfg, db, call).db)
  {
    hide Apply;
    EveryActionFramed(cfg, db, call);
  }

  lemma OAuthHangs(cfg: Config, db: DB, call: Call)
    requires OAuthOk(db.oauth, db.supply) && !Drops(call.action)
    ensures NewOAuthLinked(db, Apply(cfg, db, call).db)
  {
    hide OAuthOk, CreateChallengeTx, BeginProviderTx, BeginLinkTx, PrepareIdentityTx, NewOAuthLinked;
    match call.action
    case CreateChallenge(id, flow, kind, who, options, code, libraryOk) =>
      CreateChallengeLinks(cfg, db, call.now, id, flow, kind, who, options, code, libraryOk);
    case BeginProvider(id, cid, flow, who, kind, token) =>
      SpentStatesLink(cfg, db, call.now, id, cid, flow, who, kind, token, GoogleProvider, 0);
    case BeginLink(who, provider, state) =>
      SpentStatesLink(cfg, db, call.now, 0, 0, 0, who, Google, IdToken(false), provider, state);
    case PrepareIdentity(who, provider, redirect, libraryOk) =>
      PrepareIdentityLinks(cfg, db, call.now, who, provider, redirect, libraryOk);
    case _ =>
      hide Transact;
      UntouchedHang(cfg, db, call);
  }

  lemma StartTotpLinks(db: DB, now: Time, who: Principal, grant: Id)
    ensures NewSetupsLinked(db, Settle(db, StartTotpTx(db, now, who, grant)).db)
  {
    hide ConsumeGrant;
  }

  lemma StartPasskeyLinks(cfg: Config, db: DB, now: Time, who: Principal, grant: Id, libraryOk: bool)
    ensures NewSetupsLinked(db, Settle(db, StartPasskeyTx(cfg, db, now, who, grant, libraryOk)).db)
  {
    hide ConsumeGrant;
  }

  lemma RegisterPasskeyLinks(cfg: Config, db: DB, now: Time, who: Principal, request: Id, name: string, credential: Option<Id>)
    ensures NewSetupsLinked(db, Settle(db, RegisterPasskeyTx(cfg, db, now, who, request, name, credential)).db)
  {
    hide InvalidateRow, FullPrincipal;
  }

  lemma SetupsHang(cfg: Config, db: DB, call: Call)
    requires !Drops(call.action)
    ensures NewSetupsLinked(db, Apply(cfg, db, call).db)
  {
    hide StartTotpTx, StartPasskeyTx, RegisterPasskeyTx, NewSetupsLinked;
    match call.action
    case StartTotp(who, grant) => StartTotpLinks(db, call.now, who, grant);
    case StartPasskey(who, grant, libraryOk) => StartPasskeyLinks(cfg, db, call.now, who, grant, libraryOk);
    case RegisterPasskey(who, request, name, credential) => RegisterPasskeyLinks(cfg, db, call.now, who, request, name, credential);
    case _ =>
      hide Transact;
      UntouchedHang(cfg, db, call);
  }

  // ---------- every transaction ----------

  lemma SetPasswordKeepsLinks(cfg: Config, db: DB, now: Time, who: Principal, grant: Id, password: Store.Password)
    requires Linked(db)
    ensures Linked(Settle(db, SetPasswordTx(cfg, db, now, who, grant, password)).db)
  {
    hide ReplacePassword, ConsumeGrant, HoldsGrant, Spendable;
    if SetPasswordTx(cfg, db, now, who, grant, password).Ok? {
      if db.accounts[who.account].password.None? {
        ReplacePasswordLinks(db, now, who.account, password, {who.session});
      } else {
        ReplacePasswordLinks(ConsumeGrant(db, now, grant, PasswordChange, who).value.db, now, who.account, password, {who.session});
      }
    }
  }

  lemma ConfirmResetKeepsLinks(db: DB, now: Time, link: Id, password: Store.Password)
    requires Linked(db)
    ensures Linked(Settle(db, ConfirmPasswordResetTx(db, now, link, password)).db)
  {
    hide ReplacePassword, ResetByToken, Linked;
    if ConfirmPasswordResetTx(db, now, link, password).Ok? {
      var a := ResetByToken(db.resets, db.supply, Digest(ResetTag, 0, link)).value;
      ReplacePasswordLinks(db.(resets := db.resets - {a}), now, a, password, {});
    }
  }

  lemma ConfirmTotpKeepsLinks(cfg: Config, db: DB, now: Time, who: Principal, digits: string)
    requires Linked(db)
    ensures Linked(Settle(db, ConfirmTotpTx(cfg, db, now, who, digits)).db)
  {
    hide TotpStep, CascadeSessions, Invalidate, BackupHashes;
    if ConfirmTotpTx(cfg, db, now, who, digits).Ok? {
      var a := who.account;
      var key := db.activations[a].key;
      var used := TotpStep(cfg.mac, key, digits, now, -1);
      var c := db.(totp := db.totp[a := TotpFactor(key, used.value)], activations := db.activations - {a});
      var d := Invalidate(c, a, now);
      CascadeLinks(d.(sessions := map s | s in d.sessions && s !in SessionsOf(d, a) - {who.session} :: d.sessions[s]));
    }
  }

  lemma RevokeKeepsLinks(db: DB, now: Time, who: Principal, only: Option<Id>, session: Id, refresh: Id)
    requires Linked(db)
    ensures Linked(Settle(db, RevokeSessionsTx(db, now, who, only)).db)
    ensures Linked(Settle(db, LogoutRefreshTx(db, session, refresh)).db)
  {
    hide DropSessions, SessionsOf, Linked;
    if who.Bearer? {
      var own := SessionsOf(db, who.account);
      DropSessionsLinks(db, if only.Some? then own * {only.value} else own);
    }
    DropSessionsLinks(db, {session});
  }

  lemma DeleteDueKeepsLinks(db: DB, now: Time)
    requires Linked(db)
    ensures Linked(Settle(db, DeleteDueTx(db, now)).db)
  {
    hide NextDue, CascadeSessions, WithoutAccountOrphans, Linked;
    var due := NextDue(db.accounts, db.deletions, db.supply, now);
    if due.Some? {
      var d := Notify(Enqueue(db, ProfileDeleted(due.value, db.deletions[due.value].shared)), due.value, AccountDeleted);
      CascadeLinks(WithoutAccountOrphans(d.(accounts := d.accounts - {due.value})));
    }
  }

  lemma DropsKeepLinks(cfg: Config, db: DB, call: Call)
    requires Linked(db) && Drops(call.action)
    ensures Linked(Apply(cfg, db, call).db)
  {
    hide Linked, ExecuteAll, SetPasswordTx, ConfirmPasswordResetTx, ConfirmTotpTx, RevokeSessionsTx, LogoutRefreshTx, DeleteDueTx;
    match call.action
    case Cleanup => CleanupKeepsLinks(cfg, db, call.now, STATEMENTS);
    case SetPassword(who, grant, password) => SetPasswordKeepsLinks(cfg, db, call.now, who, grant, password);
    case ConfirmPasswordReset(link, password) => ConfirmResetKeepsLinks(db, call.now, link, password);
    case ConfirmTotp(who, digits) => ConfirmTotpKeepsLinks(cfg, db, call.now, who, digits);
    case RevokeSessions(who, only) => RevokeKeepsLinks(db, call.now, who, only, 0, 0);
    case LogoutRefresh(session, refresh) => RevokeKeepsLinks(db, call.now, Anonymous, None, session, refresh);
    case DeleteDue => DeleteDueKeepsLinks(db, call.now);
  }

  lemma LinksKept(cfg: Config, db: DB, clock: Time, call: Call)
    requires Inv(cfg, db, clock) && clock <= call.now && Linked(db)
    ensures Linked(Apply(cfg, db, call).db)
  {
    hide Linked, Apply, Core, SessionsOk, OAuthOk, Numbered, AccountsOk, ProcKeysOk, StepKeysOk, ChangesOk, ResetsOk, PasskeysOk,
      IdentitiesOk, BackupsOk;
    if Drops(call.action) {
      DropsKeepLinks(cfg, db, call);
    } else {
      SessionsStay(cfg, db, call);
      StepsStay(cfg, db, clock, call);
      NewProcsHang(cfg, db, clock, call);
      OAuthHangs(cfg, db, call);
      SetupsHang(cfg, db, call);
      hide NewProcsLinked, NewOAuthLinked, NewSetupsLinked, Keys;
      GrowingKeepsLinks(db, Apply(cfg, db, call).db);
    }
  }

  /** Over every run nothing hangs on a session or a step that is gone. */
  lemma {:induction false} LinkedThroughout(cfg: Config, db: DB, clock: Time, run: seq<Call>, now: Time)
    requires Inv(cfg, db, clock) && Follows(clock, run, now) && Linked(db)
    ensures Linked(RunFrom(cfg, db, run))
    decreases |run|
  {
    hide Inv, Apply, Linked;
    if run != [] {
      var n := |run| - 1;
      FollowsPrefix(clock, run, now);
      LinkedThroughout(cfg, db, clock, run[..n], run[n].now);
      InvThroughout(cfg, db, clock, run[..n], run[n].now);
      LinksKept(cfg, RunFrom(cfg, db, run[..n]), run[n].now, run[n]);
    }
  }
}
