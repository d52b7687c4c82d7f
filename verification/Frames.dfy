/** Which tables each transaction can write. */
module Frames {
  import opened Base
  import opened Secrets
  import opened Store
  import opened Answers
  import opened Processes
  import opened Challenges
  import opened OAuth
  import opened Accounts
  import opened Totps
  import opened Sessions
  import opened Mails
  import opened CredentialOps
  import opened Cleanups
  import opened Protocol

  // ---------- who writes which table; processes, steps and registrations are left to the lemmas on flows ----------

  predicate WritesAccounts(a: Action) {
    a.Attempt? || a.SetPassword? || a.SetUsername? || a.ConfirmPasswordReset? || a.ConfirmEmail?
    || a.SetBlocked? || a.DeleteDue?
  }

  predicate WritesSessions(a: Action) {
    a.Cleanup? || a.SetPassword? || a.ConfirmPasswordReset? || a.ConfirmTotp? || a.CreateSession? || a.Refresh?
    || a.RevokeSessions? || a.LogoutRefresh? || a.DeleteDue?
  }

  predicate WritesSteps(a: Action) {
    a.CreateChallenge? || a.Attempt? || a.FinishProvider? || a.RejectProvider? || a.Cleanup? || a.SetPassword?
    || a.ConfirmPasswordReset? || a.ConfirmTotp? || a.RevokeSessions? || a.LogoutRefresh? || a.DeleteDue?
  }

  predicate WritesOauth(a: Action) {
    a.CreateChallenge? || a.BeginProvider? || a.PrepareIdentity? || a.BeginLink? || a.Cleanup? || a.SetPassword?
    || a.ConfirmPasswordReset? || a.ConfirmTotp? || a.RevokeSessions? || a.LogoutRefresh? || a.DeleteDue?
  }

  predicate WritesChanges(a: Action) {
    a.ChangeEmail? || a.ConfirmEmail? || a.Cleanup? || a.DeleteDue?
  }

  predicate WritesResets(a: Action) {
    a.StartPasswordReset? || a.ConfirmPasswordReset? || a.Cleanup? || a.DeleteDue?
  }

  predicate WritesDeletions(a: Action) {
    a.RequestDeletion? || a.PatchDeletion? || a.CancelDeletion? || a.DeleteDue?
  }

  predicate WritesTotp(a: Action) {
    a.Attempt? || a.ConfirmTotp? || a.DeleteTotp? || a.DeleteDue?
  }

  predicate WritesActivations(a: Action) {
    a.StartTotp? || a.ConfirmTotp? || a.Cleanup? || a.SetPassword? || a.ConfirmPasswordReset?
    || a.RevokeSessions? || a.LogoutRefresh? || a.DeleteDue?
  }

  predicate WritesPasskeys(a: Action) {
    a.RegisterPasskey? || a.DeletePasskey? || a.DeleteDue?
  }

  predicate WritesPasskeyRequests(a: Action) {
    a.StartPasskey? || a.RegisterPasskey? || a.Cleanup? || a.SetPassword? || a.ConfirmPasswordReset?
    || a.ConfirmTotp? || a.RevokeSessions? || a.LogoutRefresh? || a.DeleteDue?
  }

  predicate WritesIdentities(a: Action) {
    a.FinishLink? || a.UnlinkIdentity? || a.DeleteDue?
  }

  predicate WritesBackups(a: Action) {
    a.Attempt? || a.ConfirmTotp? || a.RotateBackupCodes? || a.DeleteDue?
  }

  predicate WritesOutbox(a: Action) {
    a.CreateChallenge? || a.Attempt? || a.SetPassword? || a.SetUsername? || a.RequestDeletion?
    || a.CreateSession? || a.StartPasswordReset? || a.ConfirmPasswordReset? || a.ChangeEmail? || a.ConfirmEmail?
    || a.DeleteDue?
  }

  /** The transaction left every table it does not write as it was. */
  predicate Framed(a: Action, x: DB, y: DB) {
    && x.supply <= y.supply
    && y == DB(
      if WritesAccounts(a) then y.accounts else x.accounts,
      if WritesSessions(a) then y.sessions else x.sessions,
      y.procs,
      if WritesSteps(a) then y.steps else x.steps,
      y.signups,
      if WritesOauth(a) then y.oauth else x.oauth,
      if WritesChanges(a) then y.changes else x.changes,
      if WritesResets(a) then y.resets else x.resets,
      if WritesDeletions(a) then y.deletions else x.deletions,
      if WritesTotp(a) then y.totp else x.totp,
      if WritesActivations(a) then y.activations else x.activations,
      if WritesPasskeys(a) then y.passkeys else x.passkeys,
      if WritesPasskeyRequests(a) then y.passkeyRequests else x.passkeyRequests,
      if WritesIdentities(a) then y.identities else x.identities,
      if WritesBackups(a) then y.backups else x.backups,
      if WritesOutbox(a) then y.outbox else x.outbox,
      y.supply)
  }
  // ---------- each transaction keeps to its tables ----------

  lemma FrameStart(cfg: Config, db: DB, now: Time, name: string, who: Principal)
    ensures Framed(Start(name, who), db, Settle(db, StartTx(cfg, db, now, name, who)).db)
  {
    var d := Settle(db, StartTx(cfg, db, now, name, who)).db;
    hide PurposePrincipal, Next, Reusable, NewProcess;
    if d != db {
      var purpose := ParsePurpose(name).value;
      var e := Opened(cfg, db, now, purpose, who);
      assert e == db.(procs := e.procs, supply := db.supply + 2);
      assert d == e || d == Finish(cfg, e, db.supply, who.account, now);
      hide StartTx, ParsePurpose, Opened;
    }
  }

  lemma FrameCreateOAuth(cfg: Config, d: DB, cid: Id, step: Step, flow: Id, o: OAuthOptions, libraryOk: bool)
    requires IsProvider(step.kind)
    ensures var e := Settle(d, CreateOAuth(cfg, d, cid, step, flow, o, libraryOk)).db;
      e == d.(steps := e.steps, oauth := e.oauth, supply := e.supply) && d.supply <= e.supply
  {
    hide ProviderOf;
    var e := Settle(d, CreateOAuth(cfg, d, cid, step, flow, o, libraryOk)).db;
    assert d.supply <= e.supply;
  }

  lemma FrameCreateChallenge(cfg: Config, db: DB, now: Time, id: Id, flow: Id, kind: Kind, who: Principal, options: OAuthOptions, code: Id,
                             libraryOk: bool)
    ensures Framed(CreateChallenge(id, flow, kind, who, options, code, libraryOk),
                   db, Settle(db, CreateChallengeTx(cfg, db, now, id, flow, kind, who, options, code, libraryOk)).db)
  {
    hide Load, Next, CancelPending, CreateOAuth, Earlier;
    var r := CreateChallengeTx(cfg, db, now, id, flow, kind, who, options, code, libraryOk);
    if r.Ok? {
      var p := Load(db, now, id, flow, who).value;
      var step := Step(id, kind, Pending, 0, Earlier(now + cfg.challengeTTL, p.expires), None, NoDetail);
      var d := db.(steps := CancelPending(db.steps, id, Some(kind), None)[db.supply := step], supply := db.supply + 1);
      if IsProvider(kind) {
        FrameCreateOAuth(cfg, d, db.supply, step, flow, options, libraryOk);
      }
    }
  }

  lemma FrameFailRegistration(db: DB, id: Id)
    requires id in db.procs
    ensures var d := FailRegistration(db, id);
      d == db.(procs := d.procs, steps := d.steps, signups := d.signups)
  {
  }

  lemma FrameRegister(cfg: Config, db: DB, now: Time, id: Id)
    requires id in db.procs && id in db.signups
    ensures var d := Enlist(cfg, db, id, now);
      d == db.(accounts := d.accounts, procs := d.procs, signups := d.signups, outbox := d.outbox, supply := d.supply)
      && db.supply <= d.supply
  {
  }

  lemma FrameCompleteSignUp(cfg: Config, db: DB, now: Time, id: Id, cid: Id)
    requires id in db.procs && id in db.signups
    ensures var d := Settle(db, CompleteSignUp(cfg, db, now, id, cid)).db;
      d == db.(accounts := d.accounts, procs := d.procs, steps := d.steps, signups := d.signups, outbox := d.outbox,
               supply := d.supply) && db.supply <= d.supply
  {
    var d := Settle(db, CompleteSignUp(cfg, db, now, id, cid)).db;
    FrameFailRegistration(db, id);
    FrameRegister(cfg, db, now, id);
    var e := Enlist(cfg, db, id, now);
    assert d == FailRegistration(db, id) || d == e by {
      hide FailRegistration, Enlist, AddressTaken;
    }
    hide *;
  }

  lemma FrameAfterSignUp(cfg: Config, db: DB, now: Time, id: Id, cid: Id, kind: Kind)
    requires id in db.procs
    ensures var d := Settle(db, AfterSignUpStep(cfg, db, now, id, cid, kind)).db;
      d == db.(accounts := d.accounts, procs := d.procs, steps := d.steps, signups := d.signups, outbox := d.outbox,
               supply := d.supply) && db.supply <= d.supply
  {
    hide AddressTaken, CancelPending, Next, CompleteSignUp;
    if id in db.signups {
      FrameCompleteSignUp(cfg, db, now, id, cid);
    }
  }

  lemma FinishFrame(cfg: Config, db: DB, id: Id, account: Id, now: Time)
    requires id in db.procs
    ensures var d := Finish(cfg, db, id, account, now);
      d == db.(procs := d.procs, supply := d.supply) && db.supply <= d.supply
  {
  }

  lemma FrameAfterFactor(cfg: Config, db: DB, now: Time, id: Id, cid: Id)
    requires id in db.procs
    ensures var d := Settle(db, AfterFactor(cfg, db, now, id, cid)).db;
      d == db.(procs := d.procs, supply := d.supply) && db.supply <= d.supply
  {
    if db.procs[id].account.Some? {
      FinishFrame(cfg, db, id, db.procs[id].account.value, now);
    }
    hide Next, Finish;
  }

  lemma FrameProceed(cfg: Config, db: DB, now: Time, id: Id, cid: Id, purpose: Purpose, kind: Kind)
    requires id in db.procs && cid in db.steps
    ensures var d := Settle(db, Proceed(cfg, db, now, id, cid, purpose, kind)).db;
      d == db.(accounts := d.accounts, procs := d.procs, steps := d.steps, signups := d.signups, outbox := d.outbox,
               supply := d.supply) && db.supply <= d.supply
  {
    hide CancelPending, AfterSignUpStep, AfterFactor;
    FrameAfterSignUp(cfg, AcceptStep(db, id, cid, now), now, id, cid, kind);
    FrameAfterFactor(cfg, AcceptStep(db, id, cid, now), now, id, cid);
  }

  predicate ProofWrites(db: DB, d: DB) {
    && d == db.(procs := d.procs, signups := d.signups, totp := d.totp, backups := d.backups, supply := d.supply)
    && db.supply <= d.supply
  }

  lemma SignupWrites(db: DB, id: Id, row: Signup)
    ensures ProofWrites(db, db) && ProofWrites(db, db.(signups := db.signups[id := row]))
  {
  }

  lemma ChoiceWrites(db: DB, id: Id, password: Store.Password)
    requires id in db.signups
    ensures ProofWrites(db, ChoosePassword(db, id, password))
  {
  }

  lemma FrameStages(cfg: Config, db: DB, id: Id, p: Process, raw: string, password: Store.Password)
    requires id in db.procs
    ensures var r := VerifyRegistration(cfg, db, id, p, raw); r.Ok? ==> ProofWrites(db, r.value.db)
    ensures var r := VerifySetup(db, id, p, password); r.Ok? ==> ProofWrites(db, r.value.db)
  {
    SignupWrites(db, id, Signup(cfg.normalize(raw), None));
    if id in db.signups {
      ChoiceWrites(db, id, password);
    }
    hide ChoosePassword, ProofWrites;
  }

  lemma BindWrites(db: DB, id: Id)
    requires id in db.procs
    ensures forall a :: ProofWrites(db, Bind(db, id, a))
  {
  }

  lemma FrameFirstFactors(cfg: Config, db: DB, id: Id, p: Process, login: string, password: Store.Password, assertion: Assertion)
    requires id in db.procs
    ensures var r := VerifyPassword(cfg, db, id, p, login, password); r.Ok? ==> ProofWrites(db, r.value.db)
    ensures var r := VerifyPasskey(cfg, db, id, p, assertion); r.Ok? ==> ProofWrites(db, r.value.db)
  {
    BindWrites(db, id);
    hide PasswordAccount, PasswordFits, HasPasskey, Bind, ProofWrites;
  }

  lemma FrameSecondFactors(cfg: Config, db: DB, now: Time, id: Id, p: Process, digits: string, code: Id)
    requires id in db.procs
    ensures var r := VerifyTotp(cfg, db, now, id, p, digits); r.Ok? ==> ProofWrites(db, r.value.db)
    ensures var r := VerifyBackup(db, id, p, code); r.Ok? ==> ProofWrites(db, r.value.db)
  {
    hide TotpStep;
  }

  lemma FrameVerify(cfg: Config, db: DB, now: Time, id: Id, p: Process, cid: Id, step: Step, proof: Proof)
    requires id in db.procs && Verify(cfg, db, now, id, p, cid, step, proof).Ok?
    ensures ProofWrites(db, Verify(cfg, db, now, id, p, cid, step, proof).value.db)
  {
    hide VerifyRegistration, VerifySetup, VerifyPassword, VerifyPasskey, VerifyTotp, VerifyBackup;
    match proof
    case RegistrationProof(raw) => FrameStages(cfg, db, id, p, raw, []);
    case SetupProof(password) => FrameStages(cfg, db, id, p, "", password);
    case PasswordProof(login, password) => FrameFirstFactors(cfg, db, id, p, login, password, Unparsable);
    case PasskeyProof(assertion) => FrameFirstFactors(cfg, db, id, p, "", [], assertion);
    case TotpProof(digits) => FrameSecondFactors(cfg, db, now, id, p, digits, 0);
    case BackupProof(code) => FrameSecondFactors(cfg, db, now, id, p, "", code);
    case EmailProof(code) =>
    case OtherProof(_) =>
  }

  lemma FrameCountFailure(cfg: Config, db: DB, id: Id, cid: Id)
    requires id in db.procs && cid in db.steps
    ensures var d := CountFailure(cfg, db, id, cid);
      d == db.(procs := d.procs, steps := d.steps)
  {
  }

  lemma FrameJudge(cfg: Config, db: DB, now: Time, id: Id, cid: Id, verdict: Result<Proved>)
    requires id in db.procs && cid in db.steps
    requires Usable(db, id, verdict)
    requires verdict.Ok? ==> ProofWrites(db, verdict.value.db)
    ensures var d := Settle(db, Judge(cfg, db, now, id, cid, verdict)).db;
      d == db.(accounts := d.accounts, procs := d.procs, steps := d.steps, signups := d.signups, totp := d.totp,
               backups := d.backups, outbox := d.outbox, supply := d.supply) && db.supply <= d.supply
  {
    hide Proceed, CountFailure, FailureAnswer;
    if verdict.Ok? {
      FrameProceed(cfg, verdict.value.db, now, id, cid, db.procs[id].purpose, db.steps[cid].kind);
    } else {
      FrameCountFailure(cfg, db, id, cid);
    }
  }

  lemma FrameAttempt(cfg: Config, db: DB, now: Time, id: Id, cid: Id, flow: Id, who: Principal, proof: Proof)
    ensures Framed(Attempt(id, cid, flow, who, proof), db, Settle(db, AttemptTx(cfg, db, now, id, cid, flow, who, proof)).db)
  {
    hide Next, Judge, Verify, PurposePrincipal;
    if AttemptTx(cfg, db, now, id, cid, flow, who, proof).Ok? {
      var p := db.procs[id];
      var verdict := Verify(cfg, db, now, id, p, cid, db.steps[cid], proof);
      if verdict.Ok? {
        FrameVerify(cfg, db, now, id, p, cid, db.steps[cid], proof);
      }
      FrameJudge(cfg, db, now, id, cid, verdict);
    }
  }

  lemma FrameBeginProvider(cfg: Config, db: DB, now: Time, id: Id, cid: Id, flow: Id, who: Principal, kind: Kind, token: ProviderProof)
    ensures Framed(BeginProvider(id, cid, flow, who, kind, token),
                   db, Settle(db, BeginProviderTx(cfg, db, now, id, cid, flow, who, kind, token)).db)
  {
    hide Load, Next;
  }

  lemma FrameFinishProvider(cfg: Config, db: DB, now: Time, id: Id, cid: Id, flow: Id, who: Principal, kind: Kind, subject: string)
    ensures Framed(FinishProvider(id, cid, flow, who, kind, subject),
                   db, Settle(db, FinishProviderTx(cfg, db, now, id, cid, flow, who, kind, subject)).db)
  {
    var d := Settle(db, FinishProviderTx(cfg, db, now, id, cid, flow, who, kind, subject)).db;
    hide Load, Next, IdentityOwner, CancelPending;
    assert d == db.(procs := d.procs, steps := d.steps, supply := d.supply);
    assert db.supply <= d.supply;
    hide FinishProviderTx;
  }

  lemma FrameRejectProvider(cfg: Config, db: DB, now: Time, id: Id, cid: Id, flow: Id, who: Principal)
    ensures Framed(RejectProvider(id, cid, flow, who), db, Settle(db, RejectProviderTx(cfg, db, now, id, cid, flow, who)).db)
  {
    hide Load;
  }

  lemma FrameExecute(cfg: Config, db: DB, now: Time, q: Statement)
    ensures var d := Execute(cfg, db, now, q);
      d == db.(sessions := d.sessions, procs := d.procs, steps := d.steps, signups := d.signups, oauth := d.oauth,
               activations := d.activations, passkeyRequests := d.passkeyRequests, changes := d.changes,
               resets := d.resets)
  {
  }

  lemma {:induction false} FrameExecuteAll(cfg: Config, db: DB, now: Time, qs: seq<Statement>)
    ensures var d := ExecuteAll(cfg, db, now, qs);
      d == db.(sessions := d.sessions, procs := d.procs, steps := d.steps, signups := d.signups, oauth := d.oauth,
               activations := d.activations, passkeyRequests := d.passkeyRequests, changes := d.changes,
               resets := d.resets)
  {
    hide Execute;
    if qs != [] {
      FrameExecuteAll(cfg, db, now, qs[..|qs| - 1]);
      FrameExecute(cfg, ExecuteAll(cfg, db, now, qs[..|qs| - 1]), now, qs[|qs| - 1]);
    }
  }

  lemma FrameCleanup(cfg: Config, db: DB, now: Time)
    ensures Framed(Cleanup, db, Settle(db, CleanupTx(cfg, db, now)).db)
  {
    hide ExecuteAll;
    FrameExecuteAll(cfg, db, now, STATEMENTS);
  }

  lemma FrameReplacePassword(db: DB, now: Time, account: Id, password: Store.Password, keep: set<Id>)
    requires account in db.accounts
    ensures var d := Settle(db, ReplacePassword(db, now, account, password, keep)).db;
      d == db.(accounts := d.accounts, sessions := d.sessions, procs := d.procs, steps := d.steps,
               signups := d.signups, oauth := d.oauth, activations := d.activations,
               passkeyRequests := d.passkeyRequests, outbox := d.outbox,
               supply := d.supply) && db.supply <= d.supply
  {
  }

  lemma FrameSetPassword(cfg: Config, db: DB, now: Time, who: Principal, grant: Id, password: Store.Password)
    ensures Framed(SetPassword(who, grant, password), db, Settle(db, SetPasswordTx(cfg, db, now, who, grant, password)).db)
  {
    hide ConsumeGrant, ReplacePassword, PurposePrincipal;
    if SetPasswordTx(cfg, db, now, who, grant, password).Ok? {
      if db.accounts[who.account].password.None? {
        FrameReplacePassword(db, now, who.account, password, {who.session});
      } else {
        FrameReplacePassword(ConsumeGrant(db, now, grant, PasswordChange, who).value.db, now, who.account, password, {who.session});
      }
    }
    var d := Settle(db, SetPasswordTx(cfg, db, now, who, grant, password)).db;
    assert d == db.(accounts := d.accounts, sessions := d.sessions, procs := d.procs, steps := d.steps,
                    signups := d.signups, oauth := d.oauth, activations := d.activations,
                    passkeyRequests := d.passkeyRequests, outbox := d.outbox, supply := d.supply);
    assert db.supply <= d.supply;
    hide SetPasswordTx;
  }

  lemma FrameSetUsername(cfg: Config, db: DB, now: Time, who: Principal, username: string)
    ensures Framed(SetUsername(who, username), db, Settle(db, SetUsernameTx(cfg, db, now, who, username)).db)
  {
    var d := Settle(db, SetUsernameTx(cfg, db, now, who, username)).db;
    assert d == db.(accounts := d.accounts, outbox := d.outbox) by {
      hide ValidUsername, UsernameTaken;
    }
    hide SetUsernameTx;
  }

  lemma FrameRequestDeletion(db: DB, now: Time, who: Principal, grant: Id, shared: bool, delay: int)
    ensures Framed(RequestDeletion(who, grant, shared, delay),
                   db, Settle(db, RequestDeletionTx(db, now, who, grant, shared, delay)).db)
  {
    hide ConsumeGrant;
  }

  lemma FramePatchDeletion(db: DB, now: Time, who: Principal, shared: bool)
    ensures Framed(PatchDeletion(who, shared), db, Settle(db, PatchDeletionTx(db, now, who, shared)).db)
  {
  }

  lemma FrameCancelDeletion(db: DB, now: Time, who: Principal)
    ensures Framed(CancelDeletion(who), db, Settle(db, CancelDeletionTx(db, now, who)).db)
  {
  }

  lemma FrameStartTotp(db: DB, now: Time, who: Principal, grant: Id)
    ensures Framed(StartTotp(who, grant), db, Settle(db, StartTotpTx(db, now, who, grant)).db)
  {
    hide ConsumeGrant;
  }

  lemma FrameConfirmTotp(cfg: Config, db: DB, now: Time, who: Principal, digits: string)
    ensures Framed(ConfirmTotp(who, digits), db, Settle(db, ConfirmTotpTx(cfg, db, now, who, digits)).db)
  {
    hide TotpStep;
  }

  lemma FrameDeleteTotp(db: DB, now: Time, who: Principal, grant: Id)
    ensures Framed(DeleteTotp(who, grant), db, Settle(db, DeleteTotpTx(db, now, who, grant)).db)
  {
    hide ConsumeGrant;
  }

  lemma FrameRotateBackupCodes(db: DB, now: Time, who: Principal, grant: Id)
    ensures Framed(RotateBackupCodes(who, grant), db, Settle(db, RotateBackupCodesTx(db, now, who, grant)).db)
  {
    hide ConsumeGrant;
  }

  lemma FrameCreateSession(db: DB, now: Time, grant: Id, ttl: int)
    ensures Framed(CreateSession(grant, ttl), db, Settle(db, CreateSessionTx(db, now, grant, ttl)).db)
  {
    hide ConsumeGrant, ProcByGrant;
  }

  lemma FrameRefresh(db: DB, now: Time, id: Id, refresh: Id, ttl: int)
    ensures Framed(Refresh(id, refresh, ttl), db, Settle(db, RefreshTx(db, now, id, refresh, ttl)).db)
  {
  }

  lemma FrameRevokeSessions(db: DB, now: Time, who: Principal, only: Option<Id>)
    ensures Framed(RevokeSessions(who, only), db, Settle(db, RevokeSessionsTx(db, now, who, only)).db)
  {
  }

  lemma FrameLogoutRefresh(db: DB, id: Id, refresh: Id)
    ensures Framed(LogoutRefresh(id, refresh), db, Settle(db, LogoutRefreshTx(db, id, refresh)).db)
  {
  }

  lemma FrameStartPasswordReset(cfg: Config, db: DB, now: Time, email: string, baseOk: bool)
    ensures Framed(StartPasswordReset(email, baseOk), db, Settle(db, StartPasswordResetTx(cfg, db, now, email, baseOk)).db)
  {
    hide AccountByEmail;
  }

  lemma FrameConfirmPasswordReset(db: DB, now: Time, link: Id, password: Store.Password)
    ensures Framed(ConfirmPasswordReset(link, password), db, Settle(db, ConfirmPasswordResetTx(db, now, link, password)).db)
  {
    hide ResetByToken, ReplacePassword;
    if ConfirmPasswordResetTx(db, now, link, password).Ok? {
      var a := ResetByToken(db.resets, db.supply, Digest(ResetTag, 0, link)).value;
      FrameReplacePassword(db.(resets := db.resets - {a}), now, a, password, {});
    }
  }

  lemma FrameChangeEmail(cfg: Config, db: DB, now: Time, who: Principal, grant: Id, email: string, baseOk: bool)
    ensures Framed(ChangeEmail(who, grant, email, baseOk),
                   db, Settle(db, ChangeEmailTx(cfg, db, now, who, grant, email, baseOk)).db)
  {
    hide ConsumeGrant;
  }

  lemma FrameAskNewAddress(db: DB, account: Id, now: Time)
    requires account in db.changes
    ensures var d := AskNewAddress(db, account, now);
      d == db.(changes := d.changes, outbox := d.outbox, supply := d.supply) && db.supply <= d.supply
  {
  }

  lemma FrameMoveAddress(db: DB, account: Id, now: Time)
    requires account in db.changes && account in db.accounts
    ensures var d := Invalidate(MoveAddress(db, account), account, now);
      d == db.(accounts := d.accounts, procs := d.procs, changes := d.changes)
  {
  }

  lemma FrameConfirmEmail(db: DB, now: Time, link: Id, baseOk: bool)
    ensures Framed(ConfirmEmail(link, baseOk), db, Settle(db, ConfirmEmailTx(db, now, link, baseOk)).db)
  {
    hide ChangeByToken, EmailTaken, Invalidate, MoveAddress, AskNewAddress;
    var found := ChangeByToken(db.changes, db.supply, Digest(EmailChangeTag, 0, link));
    if ConfirmEmailTx(db, now, link, baseOk).Ok? {
      FrameAskNewAddress(db, found.value, now);
      if found.value in db.accounts {
        FrameMoveAddress(db, found.value, now);
      }
    }
  }

  lemma FramePrepareIdentity(cfg: Config, db: DB, now: Time, who: Principal, provider: Provider, redirect: string, libraryOk: bool)
    ensures Framed(PrepareIdentity(who, provider, redirect, libraryOk),
                   db, Settle(db, PrepareIdentityTx(cfg, db, now, who, provider, redirect, libraryOk)).db)
  {
  }

  lemma FrameBeginLink(cfg: Config, db: DB, now: Time, who: Principal, provider: Provider, state: Id)
    ensures Framed(BeginLink(who, provider, state), db, Settle(db, BeginLinkTx(cfg, db, now, who, provider, state)).db)
  {
  }

  lemma FrameFinishLink(db: DB, now: Time, who: Principal, grant: Id, provider: Provider, subject: string)
    ensures Framed(FinishLink(who, grant, provider, subject),
                   db, Settle(db, FinishLinkTx(db, now, who, grant, provider, subject)).db)
  {
    hide ConsumeGrant, IdentityTaken;
  }

  lemma FrameUnlinkIdentity(db: DB, now: Time, who: Principal, grant: Id, provider: Provider)
    ensures Framed(UnlinkIdentity(who, grant, provider), db, Settle(db, UnlinkIdentityTx(db, now, who, grant, provider)).db)
  {
    hide ConsumeGrant, HasOtherCredential;
  }

  lemma FrameStartPasskey(cfg: Config, db: DB, now: Time, who: Principal, grant: Id, libraryOk: bool)
    ensures Framed(StartPasskey(who, grant, libraryOk),
                   db, Settle(db, StartPasskeyTx(cfg, db, now, who, grant, libraryOk)).db)
  {
    hide ConsumeGrant;
  }

  lemma FrameRegisterPasskey(cfg: Config, db: DB, now: Time, who: Principal, request: Id, name: string, credential: Option<Id>)
    ensures Framed(RegisterPasskey(who, request, name, credential),
                   db, Settle(db, RegisterPasskeyTx(cfg, db, now, who, request, name, credential)).db)
  {
  }

  lemma FrameDeletePasskey(db: DB, now: Time, who: Principal, grant: Id, passkey: Id)
    ensures Framed(DeletePasskey(who, grant, passkey), db, Settle(db, DeletePasskeyTx(db, now, who, grant, passkey)).db)
  {
    hide ConsumeGrant, HasOtherCredential;
  }

  lemma FrameSetBlocked(db: DB, account: Id, blocked: bool)
    ensures Framed(SetBlocked(account, blocked), db, Settle(db, SetBlockedTx(db, account, blocked)).db)
  {
  }

  lemma FrameDeleteDue(db: DB, now: Time)
    ensures Framed(DeleteDue, db, Settle(db, DeleteDueTx(db, now)).db)
  {
    hide NextDue;
  }

  lemma EveryActionFramed(cfg: Config, db: DB, call: Call)
    ensures Framed(call.action, db, Apply(cfg, db, call).db)
  {
    hide Framed, StartTx, CreateChallengeTx, AttemptTx, BeginProviderTx, FinishProviderTx, RejectProviderTx,
      CleanupTx, SetPasswordTx, SetUsernameTx, RequestDeletionTx, PatchDeletionTx, CancelDeletionTx,
      DeleteDueTx, StartTotpTx, ConfirmTotpTx, DeleteTotpTx, RotateBackupCodesTx, CreateSessionTx, RefreshTx,
      RevokeSessionsTx, LogoutRefreshTx, StartPasswordResetTx, ConfirmPasswordResetTx, ChangeEmailTx,
      ConfirmEmailTx, PrepareIdentityTx, BeginLinkTx, FinishLinkTx, UnlinkIdentityTx, StartPasskeyTx,
      RegisterPasskeyTx, DeletePasskeyTx, SetBlockedTx;
    match call.action
    case Start(name, who) => FrameStart(cfg, db, call.now, name, who);
    case CreateChallenge(id, flow, kind, who, options, code, libraryOk) =>
      FrameCreateChallenge(cfg, db, call.now, id, flow, kind, who, options, code, libraryOk);
    case Attempt(id, cid, flow, who, proof) => FrameAttempt(cfg, db, call.now, id, cid, flow, who, proof);
    case BeginProvider(id, cid, flow, who, kind, token) =>
      FrameBeginProvider(cfg, db, call.now, id, cid, flow, who, kind, token);
    case FinishProvider(id, cid, flow, who, kind, subject) =>
      FrameFinishProvider(cfg, db, call.now, id, cid, flow, who, kind, subject);
    case RejectProvider(id, cid, flow, who) => FrameRejectProvider(cfg, db, call.now, id, cid, flow, who);
    case Cleanup => FrameCleanup(cfg, db, call.now);
    case SetPassword(who, grant, password) => FrameSetPassword(cfg, db, call.now, who, grant, password);
    case SetUsername(who, username) => FrameSetUsername(cfg, db, call.now, who, username);
    case RequestDeletion(who, grant, shared, delay) => FrameRequestDeletion(db, call.now, who, grant, shared, delay);
    case PatchDeletion(who, shared) => FramePatchDeletion(db, call.now, who, shared);
    case CancelDeletion(who) => FrameCancelDeletion(db, call.now, who);
    case DeleteDue => FrameDeleteDue(db, call.now);
    case StartTotp(who, grant) => FrameStartTotp(db, call.now, who, grant);
    case ConfirmTotp(who, digits) => FrameConfirmTotp(cfg, db, call.now, who, digits);
    case DeleteTotp(who, grant) => FrameDeleteTotp(db, call.now, who, grant);
    case RotateBackupCodes(who, grant) => FrameRotateBackupCodes(db, call.now, who, grant);
    case CreateSession(grant, ttl) => FrameCreateSession(db, call.now, grant, ttl);
    case Refresh(session, refresh, ttl) => FrameRefresh(db, call.now, session, refresh, ttl);
    case RevokeSessions(who, only) => FrameRevokeSessions(db, call.now, who, only);
    case LogoutRefresh(session, refresh) => FrameLogoutRefresh(db, session, refresh);
    case StartPasswordReset(email, baseOk) => FrameStartPasswordReset(cfg, db, call.now, email, baseOk);
    case ConfirmPasswordReset(link, password) => FrameConfirmPasswordReset(db, call.now, link, password);
    case ChangeEmail(who, grant, email, baseOk) => FrameChangeEmail(cfg, db, call.now, who, grant, email, baseOk);
    case ConfirmEmail(link, baseOk) => FrameConfirmEmail(db, call.now, link, baseOk);
    case PrepareIdentity(who, provider, redirect, libraryOk) =>
      FramePrepareIdentity(cfg, db, call.now, who, provider, redirect, libraryOk);
    case BeginLink(who, provider, state) => FrameBeginLink(cfg, db, call.now, who, provider, state);
    case FinishLink(who, grant, provider, subject) => FrameFinishLink(db, call.now, who, grant, provider, subject);
    case UnlinkIdentity(who, grant, provider) => FrameUnlinkIdentity(db, call.now, who, grant, provider);
    case StartPasskey(who, grant, libraryOk) => FrameStartPasskey(cfg, db, call.now, who, grant, libraryOk);
    case RegisterPasskey(who, request, name, credential) =>
      FrameRegisterPasskey(cfg, db, call.now, who, request, name, credential);
    case DeletePasskey(who, grant, passkey) => FrameDeletePasskey(db, call.now, who, grant, passkey);
    case SetBlocked(account, blocked) => FrameSetBlocked(db, account, blocked);
  }
}
