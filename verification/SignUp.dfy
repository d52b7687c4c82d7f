/** An account is created only for an address whose code was mailed and proved, by the registration that stated it. */
module SignUps {
  import opened Base
  import opened Trust
  import opened Secrets
  import opened Store
  import opened Answers
  import opened Processes
  import opened Challenges
  import opened OAuth
  import opened Accounts
  import opened Protocol
  import opened Invariant
  import opened Quietness
  import opened QuietActions
  import opened Frames
  import opened FlowActions
  import opened Acceptance
  import opened Attempts
  import opened KeyActions
  import opened Reachability
  import opened Evolution
  import opened Registrations
  import opened Ledger

  // ---------- e-mail steps and their codes ----------

  predicate MailedCode(m: Message, cid: Id, d: Detail) {
    && d.CodeSent? && m.Mail? && m.template == RegistrationCode && m.to == d.email
    && m.secret.Some? && d.hash == Digest(EmailCodeTag, cid, m.secret.value)
  }

  /** The code of the step was queued to the address the step keeps. */
  predicate CodeMailed(log: seq<Message>, cid: Id, d: Detail) {
    exists k | 0 <= k < |log| :: MailedCode(log[k], cid, d)
  }

  predicate EmailStepOk(cid: Id, s: Step, done: set<Kind>, signups: map<Id, Signup>, log: seq<Message>) {
    s.kind == Email ==>
      && CodeMailed(log, cid, s.detail) && Registration in done
      && (s.process in signups ==> s.detail.email == signups[s.process].email)
  }

  /** Every e-mail step keeps the registered address of its process, and its code went there. */
  ghost predicate Addressed(db: DB) {
    forall s | s in db.steps :: EmailStepOk(s, db.steps[s], DoneKinds(db.steps, db.steps[s].process), db.signups, db.outbox)
  }

  /** Registrations keep their address; new ones are of processes that had none. */
  ghost predicate SignupsMove(a: DB, b: DB) {
    forall r | r in b.signups ::
      if r in a.signups then b.signups[r].email == a.signups[r].email else Registration !in DoneKinds(a.steps, r)
  }

  ghost predicate NewStepsOk(a: DB, b: DB) {
    forall s | s in b.steps && s !in a.steps :: EmailStepOk(s, b.steps[s], DoneKinds(b.steps, b.steps[s].process), b.signups, b.outbox)
  }

  lemma DoneGrows(a: DB, b: DB, p: Id)
    requires StepsEvolve(a, b) && p in b.procs
    ensures DoneKinds(a.steps, p) <= DoneKinds(b.steps, p)
  {
    forall s | s in a.steps && DoneStep(a.steps[s], p)
      ensures a.steps[s].kind in DoneKinds(b.steps, p)
    {
      assert b.steps[s] == a.steps[s] && DoneStep(b.steps[s], p);
    }
  }

  lemma AddressedThrough(a: DB, b: DB)
    requires Addressed(a) && StepsEvolve(a, b) && Rooted(b) && a.outbox <= b.outbox && SignupsMove(a, b) && NewStepsOk(a, b)
    ensures Addressed(b)
  {
    forall s | s in b.steps && s in a.steps
      ensures EmailStepOk(s, b.steps[s], DoneKinds(b.steps, b.steps[s].process), b.signups, b.outbox)
    {
      var p := b.steps[s].process;
      DoneGrows(a, b, p);
      assert EmailStepOk(s, a.steps[s], DoneKinds(a.steps, p), a.signups, a.outbox);
      StepOkThrough(s, a.steps[s], b.steps[s], a, b, p);
    }
  }

  lemma StepOkThrough(cid: Id, s: Step, t: Step, a: DB, b: DB, p: Id)
    requires EmailStepOk(cid, s, DoneKinds(a.steps, p), a.signups, a.outbox) && StepEvolves(s, t) && s.process == p
    requires DoneKinds(a.steps, p) <= DoneKinds(b.steps, p) && a.outbox <= b.outbox && SignupsMove(a, b)
    ensures EmailStepOk(cid, t, DoneKinds(b.steps, p), b.signups, b.outbox)
  {
    hide DoneKinds, MailedCode;
    if s.kind == Email {
      var k :| 0 <= k < |a.outbox| && MailedCode(a.outbox[k], cid, s.detail);
      assert MailedCode(b.outbox[k], cid, t.detail);
    }
  }

  // ---------- each transaction ----------

  lemma QuietSignUps(a: DB, b: DB)
    requires Quiet(a, b)
    ensures SignupsMove(a, b) && NewStepsOk(a, b)
  {
    hide EmailStepOk, QuietProcs, QuietTotp;
  }

  lemma StartSignUps(cfg: Config, db: DB, now: Time, name: string, who: Principal)
    requires StartTx(cfg, db, now, name, who).Ok?
    ensures var b := StartTx(cfg, db, now, name, who).value.db; SignupsMove(db, b) && NewStepsOk(db, b)
  {
    hide StartTx, EmailStepOk, JustStarted;
    StartMakes(cfg, db, now, name, who);
  }

  /** What a new e-mail step is. */
  predicate FreshEmailStep(a: DB, b: DB, id: Id, cid: Id, code: Id) {
    && id in a.signups && cid in b.steps
    && b.steps[cid].detail == CodeSent(a.signups[id].email, Digest(EmailCodeTag, cid, code))
    && b.outbox == a.outbox + [Mail(a.signups[id].email, RegistrationCode, Some(code))]
  }

  lemma FillStepCodes(cfg: Config, d: DB, id: Id, cid: Id, step: Step, flow: Id, options: OAuthOptions, code: Id, libraryOk: bool)
    requires cid in d.steps && d.steps[cid] == step && FillStep(cfg, d, id, cid, step, flow, options, code, libraryOk).Ok?
    ensures var b := FillStep(cfg, d, id, cid, step, flow, options, code, libraryOk).value.db;
      b.signups == d.signups && b.steps.Keys == d.steps.Keys && (step.kind == Email ==> FreshEmailStep(d, b, id, cid, code))
  {
    hide CreateOAuth, SendCode, FreshEmailStep;
    if IsProvider(step.kind) {
      CreateOAuthMakes(cfg, d, cid, step, flow, options, libraryOk);
    } else if id in d.signups {
      SendCodeFresh(d, id, cid, step, code);
    }
  }

  lemma SendCodeFresh(d: DB, id: Id, cid: Id, step: Step, code: Id)
    requires id in d.signups && cid in d.steps
    ensures var b := SendCode(d, id, cid, step, code); b.signups == d.signups && b.steps.Keys == d.steps.Keys && FreshEmailStep(d, b, id, cid, code)
  {
  }

  lemma CreateChallengeCodes(cfg: Config, db: DB, now: Time, id: Id, flow: Id, kind: Kind, who: Principal, options: OAuthOptions, code: Id,
                             libraryOk: bool)
    requires CreateChallengeTx(cfg, db, now, id, flow, kind, who, options, code, libraryOk).Ok?
    ensures var b := CreateChallengeTx(cfg, db, now, id, flow, kind, who, options, code, libraryOk).value.db;
      && b.signups == db.signups && (forall s | s in b.steps :: s in db.steps || s == db.supply)
      && (kind == Email ==> FreshEmailStep(db, b, id, db.supply, code))
  {
    hide Load, Next, CancelPending, FillStep, Earlier;
    var p := Load(db, now, id, flow, who).value;
    var step := Step(id, kind, Pending, 0, Earlier(now + cfg.challengeTTL, p.expires), None, NoDetail);
    var d := AddStep(db, id, step);
    FillStepCodes(cfg, d, id, db.supply, step, flow, options, code, libraryOk);
    CancelKeys(db.steps, id, Some(kind));
  }

  lemma CancelKeys(steps: map<Id, Step>, id: Id, kind: Option<Kind>)
    ensures CancelPending(steps, id, kind, None).Keys == steps.Keys
  {
  }

  lemma CreateChallengeSignUps(cfg: Config, db: DB, clock: Time, now: Time, id: Id, flow: Id, kind: Kind, who: Principal, options: OAuthOptions,
                               code: Id, libraryOk: bool)
    requires Core(cfg, db, clock) && StepKeysOk(db.steps, db.supply)
    requires CreateChallengeTx(cfg, db, now, id, flow, kind, who, options, code, libraryOk).Ok?
    ensures var b := CreateChallengeTx(cfg, db, now, id, flow, kind, who, options, code, libraryOk).value.db;
      SignupsMove(db, b) && NewStepsOk(db, b)
  {
    hide CreateChallengeTx, CancelPending;
    var b := CreateChallengeTx(cfg, db, now, id, flow, kind, who, options, code, libraryOk).value.db;
    CreateChallengeCodes(cfg, db, now, id, flow, kind, who, options, code, libraryOk);
    CreateChallengeMakes(cfg, db, now, id, flow, kind, who, options, code, libraryOk);
    NextIdIsNoStep(db);
    if kind == Email {
      RegisteredBefore(cfg, db, clock, id);
      ChallengeKeepsDone(db, b, id, kind);
      NewCodeMailed(db, b, id, code);
    }
    hide Core, DoneKinds, CodeMailed, StepKeysOk;
  }

  lemma RegisteredBefore(cfg: Config, db: DB, clock: Time, id: Id)
    requires Core(cfg, db, clock) && id in db.procs && db.procs[id].purpose == SignUp && id in db.signups
    ensures Registration in DoneKinds(db.steps, id)
  {
    assert StageOk(id, db.procs[id], db.steps, db.signups, db.totp);
    hide DoneKinds, ProcsOk, StepsOk, OneEach, Budget;
  }

  lemma NewCodeMailed(a: DB, b: DB, id: Id, code: Id)
    requires FreshEmailStep(a, b, id, a.supply, code)
    ensures CodeMailed(b.outbox, a.supply, b.steps[a.supply].detail)
  {
    assert MailedCode(b.outbox[|a.outbox|], a.supply, b.steps[a.supply].detail);
  }

  lemma ProceedSignUps(cfg: Config, v: DB, now: Time, id: Id, cid: Id, purpose: Purpose, kind: Kind)
    requires id in v.procs && cid in v.steps
    ensures KeepAddresses(v.signups, Settle(v, Proceed(cfg, v, now, id, cid, purpose, kind)).db.signups)
  {
    var d := AcceptStep(v, id, cid, now);
    assert d.signups == v.signups && id in d.procs;
    hide AcceptStep;
    AfterSignUpSignUps(cfg, d, now, id, cid, kind);
    FrameAfterFactor(cfg, d, now, id, cid);
    hide AfterSignUpStep, AfterFactor;
  }

  /** Registrations may go, but keep their address. */
  ghost predicate KeepAddresses(a: map<Id, Signup>, b: map<Id, Signup>) {
    forall r | r in b :: r in a && b[r].email == a[r].email
  }

  lemma FailKeepsAddresses(d: DB, id: Id)
    requires id in d.procs
    ensures KeepAddresses(d.signups, FailRegistration(d, id).signups)
  {
    hide CancelPending;
  }

  lemma EnlistKeepsAddresses(cfg: Config, d: DB, id: Id, now: Time)
    requires id in d.procs && id in d.signups
    ensures KeepAddresses(d.signups, Enlist(cfg, d, id, now).signups)
  {
  }

  lemma AfterSignUpSignUps(cfg: Config, d: DB, now: Time, id: Id, cid: Id, kind: Kind)
    requires id in d.procs
    ensures KeepAddresses(d.signups, Settle(d, AfterSignUpStep(cfg, d, now, id, cid, kind)).db.signups)
  {
    hide Next, EmailTaken, FailRegistration, Enlist, KeepAddresses;
    FailKeepsAddresses(d, id);
    ItselfKeepsAddresses(d.signups);
    if id in d.signups {
      EnlistKeepsAddresses(cfg, d, id, now);
    }
  }

  lemma ItselfKeepsAddresses(a: map<Id, Signup>)
    ensures KeepAddresses(a, a)
  {
  }

  lemma StageSignUps(cfg: Config, db: DB, id: Id, p: Process, raw: string, password: Store.Password)
    requires id in db.procs
    ensures var r := VerifyRegistration(cfg, db, id, p, raw);
      r.Ok? ==> forall x | x in r.value.db.signups :: if x in db.signups then r.value.db.signups[x].email == db.signups[x].email else x == id
    ensures var r := VerifySetup(db, id, p, password); r.Ok? ==> KeepAddresses(db.signups, r.value.db.signups)
  {
    if id in db.signups {
      assert KeepAddresses(db.signups, ChoosePassword(db, id, password).signups);
    }
    hide ChoosePassword;
  }

  lemma BindSignUps(db: DB, id: Id)
    requires id in db.procs
    ensures forall a :: Bind(db, id, a).signups == db.signups
  {
  }

  lemma FirstFactorSignUps(cfg: Config, db: DB, id: Id, p: Process, login: string, password: Store.Password, assertion: Assertion)
    requires id in db.procs
    ensures var r := VerifyPassword(cfg, db, id, p, login, password); r.Ok? ==> r.value.db.signups == db.signups
    ensures var r := VerifyPasskey(cfg, db, id, p, assertion); r.Ok? ==> r.value.db.signups == db.signups
  {
    hide PasswordAccount, PasswordFits, HasPasskey, Bind;
    BindSignUps(db, id);
  }

  lemma SecondFactorSignUps(cfg: Config, db: DB, now: Time, id: Id, p: Process, digits: string, code: Id)
    requires id in db.procs
    ensures var r := VerifyTotp(cfg, db, now, id, p, digits); r.Ok? ==> r.value.db.signups == db.signups
    ensures var r := VerifyBackup(db, id, p, code); r.Ok? ==> r.value.db.signups == db.signups
  {
    hide TotpStep;
  }

  lemma VerifySignUps(cfg: Config, db: DB, now: Time, id: Id, p: Process, cid: Id, step: Step, proof: Proof)
    requires id in db.procs && Verify(cfg, db, now, id, p, cid, step, proof).Ok?
    ensures var v := Verify(cfg, db, now, id, p, cid, step, proof).value.db;
      forall r | r in v.signups :: if r in db.signups then v.signups[r].email == db.signups[r].email else r == id && proof.RegistrationProof?
  {
    hide VerifyRegistration, VerifySetup, VerifyPassword, VerifyPasskey, VerifyTotp, VerifyBackup;
    match proof
    case RegistrationProof(raw) => StageSignUps(cfg, db, id, p, raw, []);
    case SetupProof(password) => StageSignUps(cfg, db, id, p, "", password);
    case PasswordProof(login, password) => FirstFactorSignUps(cfg, db, id, p, login, password, Unparsable);
    case PasskeyProof(assertion) => FirstFactorSignUps(cfg, db, id, p, "", [], assertion);
    case TotpProof(digits) => SecondFactorSignUps(cfg, db, now, id, p, digits, 0);
    case BackupProof(code) => SecondFactorSignUps(cfg, db, now, id, p, "", code);
    case EmailProof(code) =>
    case OtherProof(_) =>
  }

  lemma SignupsThrough(a: DB, v: DB, b: DB, id: Id, registers: bool)
    requires forall r | r in v.signups :: if r in a.signups then v.signups[r].email == a.signups[r].email else r == id && registers
    requires KeepAddresses(v.signups, b.signups) && (registers ==> Registration !in DoneKinds(a.steps, id))
    ensures SignupsMove(a, b)
  {
    hide DoneKinds;
  }

  lemma CountSignUps(cfg: Config, db: DB, id: Id, cid: Id)
    requires id in db.procs && cid in db.steps
    ensures SignupsMove(db, CountFailure(cfg, db, id, cid)) && SignupsMove(db, db)
  {
    hide DoneKinds;
  }

  lemma JudgeSignUps(cfg: Config, db: DB, clock: Time, now: Time, id: Id, cid: Id, flow: Id, proof: Proof)
    requires Core(cfg, db, clock) && Admitted(cfg, db, now, id, cid, flow) && db.steps[cid].kind == proof.Method()
    ensures var b := Settle(db, Judge(cfg, db, now, id, cid, Verify(cfg, db, now, id, db.procs[id], cid, db.steps[cid], proof))).db;
      SignupsMove(db, b)
  {
    hide *;
    AdmittedRows(cfg, db, now, id, cid, flow);
    var p, step := db.procs[id], db.steps[cid];
    var verdict := Verify(cfg, db, now, id, p, cid, step, proof);
    VerdictRows(db, id, cid, verdict, proof);
    CountSignUps(cfg, db, id, cid);
    JudgeOutcome(cfg, db, now, id, cid, verdict);
    if verdict.Ok? {
      var v := verdict.value.db;
      VerifySignUps(cfg, db, now, id, p, cid, step, proof);
      ProceedSignUps(cfg, v, now, id, cid, p.purpose, step.kind);
      if proof.RegistrationProof? {
        RegistrationIsForSignUp(cfg, db, now, id, cid, flow);
        NotRegisteredYet(cfg, db, clock, id, flow, now, cid);
      }
      SignupsThrough(db, v, Settle(v, Proceed(cfg, v, now, id, cid, p.purpose, step.kind)).db, id, proof.RegistrationProof?);
    }
  }

  // A verdict is counted, rolled back, or lets the process proceed.
  lemma JudgeOutcome(cfg: Config, db: DB, now: Time, id: Id, cid: Id, verdict: Result<Proved>)
    requires id in db.procs && cid in db.steps && Usable(db, id, verdict)
    ensures var b := Settle(db, Judge(cfg, db, now, id, cid, verdict)).db;
      || b == db
      || (verdict.Err? && b == CountFailure(cfg, db, id, cid))
      || (verdict.Ok? && id in verdict.value.db.procs && cid in verdict.value.db.steps
          && b == Settle(verdict.value.db, Proceed(cfg, verdict.value.db, now, id, cid, db.procs[id].purpose, db.steps[cid].kind)).db)
  {
    hide Proceed, CountFailure, FailureAnswer;
  }

  lemma RegistrationIsForSignUp(cfg: Config, db: DB, now: Time, id: Id, cid: Id, flow: Id)
    requires Admitted(cfg, db, now, id, cid, flow) && db.steps[cid].kind == Registration
    ensures db.procs[id].purpose == SignUp
  {
    NextKinds(cfg, db, id, db.procs[id], Registration);
    hide Next, DoneKinds;
  }

  lemma NotRegisteredYet(cfg: Config, db: DB, clock: Time, id: Id, flow: Id, now: Time, cid: Id)
    requires Core(cfg, db, clock) && Admitted(cfg, db, now, id, cid, flow) && db.steps[cid].kind == Registration && db.procs[id].purpose == SignUp
    ensures Registration !in DoneKinds(db.steps, id)
  {
    NextStage(cfg, db, id, db.procs[id], Registration);
    assert StageOk(id, db.procs[id], db.steps, db.signups, db.totp);
    hide DoneKinds, ProcsOk, StepsOk, OneEach, Budget, Next;
  }

  lemma AttemptSignUps(cfg: Config, db: DB, clock: Time, now: Time, id: Id, cid: Id, flow: Id, who: Principal, proof: Proof)
    requires Core(cfg, db, clock) && AttemptTx(cfg, db, now, id, cid, flow, who, proof).Ok?
    ensures SignupsMove(db, AttemptTx(cfg, db, now, id, cid, flow, who, proof).value.db)
  {
    hide AttemptTx, Core, Judge, Verify, SignupsMove, Next;
    AttemptAdmits(cfg, db, now, id, cid, flow, who, proof);
    JudgeSignUps(cfg, db, clock, now, id, cid, flow, proof);
  }

  lemma ProviderSignUps(cfg: Config, db: DB, now: Time, id: Id, cid: Id, flow: Id, who: Principal, kind: Kind, subject: string)
    requires FinishProviderTx(cfg, db, now, id, cid, flow, who, kind, subject).Ok?
    ensures FinishProviderTx(cfg, db, now, id, cid, flow, who, kind, subject).value.db.signups == db.signups
  {
    hide FinishProviderTx, AfterFactor, IdentityOwner, Admitted;
    FinishAdmits(cfg, db, now, id, cid, flow, who, kind, subject);
    assert id in db.procs && cid in db.steps by { AdmittedRows(cfg, db, now, id, cid, flow); }
    var owner := IdentityOwner(db.identities, db.supply, ProviderOf(kind), subject).value;
    var d := AcceptStep(Bind(db, id, owner), id, cid, now);
    assert d.signups == db.signups && id in d.procs;
    hide AcceptStep, Bind;
    FrameAfterFactor(cfg, d, now, id, cid);
  }

  lemma VerdictRows(db: DB, id: Id, cid: Id, verdict: Result<Proved>, proof: Proof)
    requires id in db.procs && cid in db.steps && Usable(db, id, verdict)
    ensures verdict.Ok? ==> id in verdict.value.db.procs && cid in verdict.value.db.steps
    ensures proof.RegistrationProof? ==> proof.Method() == Registration
  {
  }

  lemma AdmittedRows(cfg: Config, db: DB, now: Time, id: Id, cid: Id, flow: Id)
    requires Admitted(cfg, db, now, id, cid, flow)
    ensures id in db.procs && cid in db.steps && db.procs[id].status == Pending
  {
  }

  lemma RejectSignUps(cfg: Config, db: DB, now: Time, id: Id, cid: Id, flow: Id, who: Principal)
    ensures Settle(db, RejectProviderTx(cfg, db, now, id, cid, flow, who)).db.signups == db.signups
  {
    hide Load;
  }

  lemma WorkedNewSteps(cfg: Config, a: DB, b: DB, id: Id, cid: Id, now: Time)
    requires Worked(cfg, a, b, id, cid, now)
    ensures NewStepsOk(a, b)
  {
    hide Core, Moved, StepKeysOk, EmailStepOk;
  }

  lemma NoisySignUps(cfg: Config, db: DB, clock: Time, call: Call)
    requires FlowsOk(cfg, db, clock) && clock <= call.now && Numbered(db.totp, db.supply) && Noisy(call.action)
    requires Transact(cfg, db, call.now, call.action).Ok?
    ensures SignupsMove(db, Apply(cfg, db, call).db) && NewStepsOk(db, Apply(cfg, db, call).db)
  {
    var now, b := call.now, Apply(cfg, db, call).db;
    hide Core, StepKeysOk, ProcKeysOk, Numbered, StartTx, CreateChallengeTx, AttemptTx, FinishProviderTx, RejectProviderTx, Worked;
    hide NewStepsOk, DoneKinds;
    match call.action
    case Start(name, who) => StartSignUps(cfg, db, now, name, who);
    case CreateChallenge(id, flow, kind, who, options, code, libraryOk) =>
      CreateChallengeSignUps(cfg, db, clock, now, id, flow, kind, who, options, code, libraryOk);
    case Attempt(id, cid, flow, who, proof) =>
      AttemptKeepsCore(cfg, db, clock, now, id, cid, flow, who, proof);
      WorkedNewSteps(cfg, db, b, id, cid, now);
      AttemptSignUps(cfg, db, clock, now, id, cid, flow, who, proof);
    case FinishProvider(id, cid, flow, who, kind, subject) =>
      FinishKeepsCore(cfg, db, clock, now, id, cid, flow, who, kind, subject);
      WorkedNewSteps(cfg, db, b, id, cid, now);
      ProviderSignUps(cfg, db, now, id, cid, flow, who, kind, subject);
    case RejectProvider(id, cid, flow, who) =>
      RejectKeepsCore(cfg, db, clock, now, id, cid, flow, who);
      WorkedNewSteps(cfg, db, b, id, cid, now);
      RejectSignUps(cfg, db, now, id, cid, flow, who);
  }

  // ---------- over runs ----------

  lemma OutboxGrows(cfg: Config, db: DB, clock: Time, call: Call)
    requires Core(cfg, db, clock) && clock <= call.now
    ensures db.outbox <= Apply(cfg, db, call).db.outbox
  {
    hide Core, AttemptTx, DeleteDueTx, HolderOf, NextDue, DoneKinds, EmailTaken;
    if call.action.Attempt? {
      var Attempt(id, cid, flow, who, proof) := call.action;
      AttemptAccounts(cfg, db, clock, call.now, id, cid, flow, who, proof);
    } else if call.action.DeleteDue? {
      DeleteDueGrows(db, call.now);
    } else {
      hide Transact;
      SettledMails(cfg, db, call);
    }
  }

  lemma DeleteDueGrows(db: DB, now: Time)
    ensures db.outbox <= Settle(db, DeleteDueTx(db, now)).db.outbox
  {
    hide NextDue, DropAccount;
    var due := NextDue(db.accounts, db.deletions, db.supply, now);
    if due.Some? {
      DropAccountExactly(Notify(Enqueue(db, ProfileDeleted(due.value, db.deletions[due.value].shared)), due.value, AccountDeleted), due.value);
    }
  }

  lemma AddressedKept(cfg: Config, db: DB, clock: Time, call: Call)
    requires FlowsOk(cfg, db, clock) && clock <= call.now && Numbered(db.totp, db.supply) && Addressed(db)
    ensures Addressed(Apply(cfg, db, call).db)
  {
    var b := Apply(cfg, db, call).db;
    hide Core, StepKeysOk, ProcKeysOk, Numbered, Addressed, SignupsMove, NewStepsOk, Rooted, StepsEvolve, ProcsEvolve, Transact;
    OutboxGrows(cfg, db, clock, call);
    EveryActionEvolves(cfg, db, clock, call);
    InvRooted(cfg, db, clock);
    if !Noisy(call.action) {
      OthersAreQuiet(cfg, db, call);
      hide Apply;
      QuietSignUps(db, b);
      QuietRooted(db, b);
      AddressedThrough(db, b);
    } else if Transact(cfg, db, call.now, call.action).Ok? {
      NoisySignUps(cfg, db, clock, call);
      FlowsKept(cfg, db, clock, call);
      hide Apply;
      InvRooted(cfg, b, call.now);
      AddressedThrough(db, b);
    }
  }

  lemma {:induction false} AddressedAfter(cfg: Config, run: seq<Call>, now: Time)
    requires Ordered(run, now)
    ensures Addressed(After(cfg, run))
  {
    hide Apply, Inv, Addressed;
    if run == [] {
      EmptyAddressed();
    } else {
      var n := |run| - 1;
      OrderedPrefix(run, now, n);
      AddressedAfter(cfg, run[..n], run[n].now);
      Reachable(cfg, run[..n], run[n].now);
      InvFlows(cfg, After(cfg, run[..n]), run[n].now);
      AddressedKept(cfg, After(cfg, run[..n]), run[n].now, run[n]);
    }
  }

  lemma EmptyAddressed()
    ensures Addressed(EMPTY)
  {
  }

  /** The step proved the address: it is completed, and its code was queued there before. */
  predicate Proved(a: DB, b: DB, id: Id, s: Id, email: string) {
    && s in a.steps && s in b.steps && b.steps[s].process == id && b.steps[s].kind == Email && b.steps[s].status == Completed
    && a.steps[s].detail.CodeSent? && a.steps[s].detail.email == email && CodeMailed(a.outbox, s, a.steps[s].detail)
  }

  lemma EnlistedWasProved(cfg: Config, a: DB, b: DB, clock: Time, id: Id, x: Id)
    requires Enlisted(a, b, id, x) && Addressed(a) && StepsEvolve(a, b) && NewStepsOk(a, b) && Core(cfg, b, clock)
    requires forall s | s in b.steps :: s in a.steps
    ensures Registration in DoneKinds(b.steps, id) && StagesDone(DoneKinds(b.steps, id))
    ensures exists s :: Proved(a, b, id, s, b.accounts[x].email)
  {
    assert Registration in DoneKinds(b.steps, id) by {
      assert StageOk(id, b.procs[id], b.steps, b.signups, b.totp);
      hide DoneKinds, ProcsOk, StepsOk, OneEach, Budget, NewStepsOk, EmailTaken;
    }
    hide Core, EmailTaken;
    var s :| s in b.steps && DoneStep(b.steps[s], id) && b.steps[s].kind == Email;
    assert EmailStepOk(s, a.steps[s], DoneKinds(a.steps, a.steps[s].process), a.signups, a.outbox);
    assert Proved(a, b, id, s, b.accounts[x].email);
  }

  lemma NewAccountIsEnlisted(cfg: Config, db: DB, clock: Time, call: Call, x: Id)
    requires Core(cfg, db, clock) && clock <= call.now
    requires x in Apply(cfg, db, call).db.accounts && x !in db.accounts
    ensures call.action.Attempt? && Transact(cfg, db, call.now, call.action).Ok? && Enlisted(db, Apply(cfg, db, call).db, call.action.id, x)
  {
    hide Core, AttemptTx, DeleteDueTx, DoneKinds, EmailTaken;
    if call.action.Attempt? {
      var Attempt(id, cid, flow, who, proof) := call.action;
      AttemptAccounts(cfg, db, clock, call.now, id, cid, flow, who, proof);
    } else if call.action.DeleteDue? {
      DeleteDueDrops(db, call.now);
    } else {
      hide Transact;
      SettledKeepAccounts(cfg, db, call);
    }
  }

  lemma AttemptAddsNoStep(cfg: Config, db: DB, clock: Time, call: Call)
    requires FlowsOk(cfg, db, clock) && clock <= call.now && Numbered(db.totp, db.supply)
    requires call.action.Attempt? && Transact(cfg, db, call.now, call.action).Ok?
    ensures forall s | s in Apply(cfg, db, call).db.steps :: s in db.steps
  {
    hide Core, AttemptTx, StepKeysOk, ProcKeysOk, Numbered, Worked;
    var Attempt(id, cid, flow, who, proof) := call.action;
    AttemptKeepsCore(cfg, db, clock, call.now, id, cid, flow, who, proof);
    WorkedAddsNoStep(cfg, db, Apply(cfg, db, call).db, id, cid, call.now);
  }

  lemma WorkedAddsNoStep(cfg: Config, a: DB, b: DB, id: Id, cid: Id, now: Time)
    requires Worked(cfg, a, b, id, cid, now)
    ensures forall s | s in b.steps :: s in a.steps
  {
    hide Core, Moved, StepKeysOk;
  }

  // ---------- the order of the stages ----------

  /** Call k of the run completed a step of this kind, the first of the process. */
  ghost predicate StageAt(cfg: Config, run: seq<Call>, k: nat, id: Id, kind: Kind) {
    k < |run| && kind !in DoneKinds(After(cfg, run[..k]).steps, id) && kind in DoneKinds(After(cfg, run[..k + 1]).steps, id)
  }

  /** Registration, then e-mail, then password setup with call n. */
  ghost predicate InOrder(cfg: Config, run: seq<Call>, i: nat, j: nat, n: nat, id: Id) {
    i < j < n && StageAt(cfg, run, i, id, Registration) && StageAt(cfg, run, j, id, Email) && StageAt(cfg, run, n, id, PasswordSetup)
  }

  /** At most the step c is newly completed. */
  ghost predicate OnlyCompletes(a: map<Id, Step>, b: map<Id, Step>, id: Id, c: Id) {
    forall s | s in b && DoneStep(b[s], id) :: s == c || (s in a && DoneStep(a[s], id) && a[s].kind == b[s].kind)
  }

  lemma WorkedCompletesOne(cfg: Config, a: DB, b: DB, other: Id, cid: Id, now: Time, id: Id)
    requires Worked(cfg, a, b, other, cid, now)
    ensures OnlyCompletes(a.steps, b.steps, id, cid)
  {
    hide Core, Moved, StepKeysOk;
  }

  lemma AddedCompletesNone(a: DB, b: DB, other: Id, kind: Kind, id: Id)
    requires StepAdded(a, b, other, kind)
    ensures OnlyCompletes(a.steps, b.steps, id, 0)
  {
  }

  lemma QuietCompletesNone(a: DB, b: DB, id: Id)
    requires Quiet(a, b)
    ensures OnlyCompletes(a.steps, b.steps, id, 0)
  {
  }

  lemma NothingCompletes(a: map<Id, Step>, id: Id)
    ensures OnlyCompletes(a, a, id, 0)
  {
  }

  lemma OneStepCompletes(cfg: Config, db: DB, clock: Time, call: Call, id: Id) returns (c: Id)
    requires FlowsOk(cfg, db, clock) && clock <= call.now && Numbered(db.totp, db.supply)
    ensures OnlyCompletes(db.steps, Apply(cfg, db, call).db.steps, id, c)
  {
    hide *;
    c := 0;
    var b := Apply(cfg, db, call).db;
    Dispatched(cfg, db, call);
    NothingCompletes(db.steps, id);
    if !Noisy(call.action) {
      FlowsRooted(cfg, db, clock);
      OthersAreQuiet(cfg, db, call);
      QuietCompletesNone(db, b, id);
    } else if Transact(cfg, db, call.now, call.action).Ok? {
      NoisyMoves(cfg, db, clock, call);
      c := MoveCompletes(cfg, db, b, call, id);
    }
  }

  lemma MoveCompletes(cfg: Config, a: DB, b: DB, call: Call, id: Id) returns (c: Id)
    requires FlowMoves(cfg, a, b, call)
    ensures OnlyCompletes(a.steps, b.steps, id, c)
  {
    hide Worked, StepAdded, OnlyCompletes;
    c := 0;
    match call.action {
      case Start(_, _) => NothingCompletes(a.steps, id);
      case CreateChallenge(other, _, kind, _, _, _, _) => AddedCompletesNone(a, b, other, kind, id);
      case Attempt(other, cid, _, _, _) => WorkedCompletesOne(cfg, a, b, other, cid, call.now, id); c := cid;
      case FinishProvider(other, cid, _, _, _, _) => WorkedCompletesOne(cfg, a, b, other, cid, call.now, id); c := cid;
      case RejectProvider(other, cid, _, _) => WorkedCompletesOne(cfg, a, b, other, cid, call.now, id); c := cid;
    }
  }

  lemma OneStageAtATime(a: map<Id, Step>, b: map<Id, Step>, id: Id, c: Id, j: Kind, k: Kind)
    requires OnlyCompletes(a, b, id, c)
    requires j in DoneKinds(b, id) && j !in DoneKinds(a, id) && k in DoneKinds(b, id) && k !in DoneKinds(a, id)
    ensures j == k
  {
  }

  // Of two stages, if one is newly completed the other was complete before or is not complete.
  lemma StagesApart(cfg: Config, run: seq<Call>, now: Time, n: nat, id: Id, j: Kind, k: Kind)
    requires Ordered(run, now) && StageAt(cfg, run, n, id, j) && j != k && k in DoneKinds(After(cfg, run[..n + 1]).steps, id)
    ensures k in DoneKinds(After(cfg, run[..n]).steps, id)
  {
    hide After, Apply, Inv, DoneKinds, FlowsOk, Numbered, StepKeysOk, OnlyCompletes;
    var a := After(cfg, run[..n]);
    OrderedPrefix(run, now, n);
    Reachable(cfg, run[..n], run[n].now);
    InvFlows(cfg, a, run[n].now);
    var c := OneStepCompletes(cfg, a, run[n].now, run[n], id);
    NextState(cfg, run, n);
    if k !in DoneKinds(a.steps, id) {
      OneStageAtATime(a.steps, After(cfg, run[..n + 1]).steps, id, c, j, k);
    }
  }

  lemma NextState(cfg: Config, run: seq<Call>, n: nat)
    requires n < |run|
    ensures After(cfg, run[..n + 1]) == Apply(cfg, After(cfg, run[..n]), run[n]).db
  {
    hide Apply;
    assert run[..n + 1][..n] == run[..n];
  }

  // A completed stage was completed by some call.
  lemma {:induction false} StageWasDone(cfg: Config, run: seq<Call>, n: nat, id: Id, kind: Kind) returns (k: nat)
    requires n <= |run| && kind in DoneKinds(After(cfg, run[..n]).steps, id)
    ensures k < n && StageAt(cfg, run, k, id, kind)
  {
    hide Apply;
    assert n > 0;
    assert run[..n - 1 + 1] == run[..n];
    if kind in DoneKinds(After(cfg, run[..n - 1]).steps, id) {
      k := StageWasDone(cfg, run, n - 1, id, kind);
    } else {
      k := n - 1;
    }
  }

  lemma EmailAfterRegistration(cfg: Config, db: DB, clock: Time, id: Id)
    requires Core(cfg, db, clock) && Email in DoneKinds(db.steps, id)
    ensures Registration in DoneKinds(db.steps, id)
  {
    hide ProcsOk, OneEach, Budget;
    var s :| s in db.steps && DoneStep(db.steps[s], id) && db.steps[s].kind == Email;
    assert StepOk(db.steps[s], db.procs[id], clock) && StageOk(id, db.procs[id], db.steps, db.signups, db.totp);
    hide DoneKinds, StepsOk, Stages;
  }

  lemma SetupEndsSignUp(cfg: Config, db: DB, clock: Time, id: Id)
    requires Core(cfg, db, clock) && id in db.procs && db.procs[id].purpose == SignUp && db.procs[id].status == Pending
    ensures PasswordSetup !in DoneKinds(db.steps, id)
  {
    hide ProcsOk, StepsOk, OneEach, Budget, DoneKinds;
    assert StageOk(id, db.procs[id], db.steps, db.signups, db.totp);
  }

  lemma StagesCameInOrder(cfg: Config, run: seq<Call>, now: Time, n: nat, id: Id) returns (i: nat, j: nat)
    requires Ordered(run, now) && n < |run| && id in After(cfg, run[..n]).procs
    requires After(cfg, run[..n]).procs[id].purpose == SignUp && After(cfg, run[..n]).procs[id].status == Pending
    requires {Email, PasswordSetup} <= DoneKinds(After(cfg, run[..n + 1]).steps, id)
    ensures InOrder(cfg, run, i, j, n, id)
  {
    hide After, Inv, DoneKinds, Core;
    OrderedPrefix(run, now, n);
    Reachable(cfg, run[..n], run[n].now);
    InvCore(cfg, After(cfg, run[..n]), run[n].now);
    SetupEndsSignUp(cfg, After(cfg, run[..n]), run[n].now, id);
    StagesApart(cfg, run, now, n, id, PasswordSetup, Email);
    j := StageWasDone(cfg, run, n, id, Email);
    PrefixOrdered(run, now, j);
    Reachable(cfg, run[..j + 1], run[j].now);
    InvCore(cfg, After(cfg, run[..j + 1]), run[j].now);
    EmailAfterRegistration(cfg, After(cfg, run[..j + 1]), run[j].now, id);
    StagesApart(cfg, run, now, j, id, Email, Registration);
    i := StageWasDone(cfg, run, j, id, Registration);
  }

  lemma PrefixOrdered(run: seq<Call>, now: Time, n: nat)
    requires Ordered(run, now) && n < |run|
    ensures Ordered(run[..n + 1], run[n].now)
  {
  }

  lemma AttemptIsPending(cfg: Config, db: DB, call: Call)
    requires call.action.Attempt? && Transact(cfg, db, call.now, call.action).Ok?
    ensures call.action.id in db.procs && db.procs[call.action.id].status == Pending
  {
    hide *;
    var Attempt(id, cid, flow, who, proof) := call.action;
    Dispatched(cfg, db, call);
    AttemptAdmits(cfg, db, call.now, id, cid, flow, who, proof);
    AdmittedRows(cfg, db, call.now, id, cid, flow);
  }

  /** A new account comes from one attempt, of a registration that has stated its address, then proved the code queued there, then
      chosen a password; the address was free, and it is the address of the account. */
  lemma AccountsAreSignedUp(cfg: Config, run: seq<Call>, now: Time, n: nat, x: Id)
    requires Ordered(run, now) && n < |run|
    requires x in Apply(cfg, After(cfg, run[..n]), run[n]).db.accounts && x !in After(cfg, run[..n]).accounts
    ensures run[n].action.Attempt?
    ensures var a, b, id := After(cfg, run[..n]), Apply(cfg, After(cfg, run[..n]), run[n]).db, run[n].action.id;
      && Enlisted(a, b, id, x)
      && (exists i: nat, j: nat :: InOrder(cfg, run, i, j, n, id))
      && (exists s :: Proved(a, b, id, s, b.accounts[x].email))
  {
    hide Apply, After, Inv, Addressed, StepsEvolve, ProcsEvolve, SignupsMove, NewStepsOk, Enlisted, FlowsOk, Numbered, Core, Transact;
    var a, b, call := After(cfg, run[..n]), Apply(cfg, After(cfg, run[..n]), run[n]).db, run[n];
    OrderedPrefix(run, now, n);
    Reachable(cfg, run[..n], call.now);
    InvFlows(cfg, a, call.now);
    assert Core(cfg, a, call.now) by { InvCore(cfg, a, call.now); }
    NewAccountIsEnlisted(cfg, a, call.now, call, x);
    AddressedAfter(cfg, run[..n], call.now);
    EveryActionEvolves(cfg, a, call.now, call);
    NoisySignUps(cfg, a, call.now, call);
    AttemptAddsNoStep(cfg, a, call.now, call);
    InvKept(cfg, a, call.now, call);
    InvCore(cfg, b, call.now);
    EnlistedWasProved(cfg, a, b, call.now, call.action.id, x);
    CommittedAttempt(cfg, a, call, x);
    AttemptIsPending(cfg, a, call);
    NextState(cfg, run, n);
    EnlistedStages(a, b, call.action.id, x);
    var i, j := StagesCameInOrder(cfg, run, now, n, call.action.id);
  }

  lemma CommittedAttempt(cfg: Config, db: DB, call: Call, x: Id)
    requires x in Apply(cfg, db, call).db.accounts && x !in db.accounts
    ensures Transact(cfg, db, call.now, call.action).Ok?
  {
    hide *;
    Dispatched(cfg, db, call);
  }

  lemma EnlistedStages(a: DB, b: DB, id: Id, x: Id)
    requires Enlisted(a, b, id, x)
    ensures id in a.procs && a.procs[id].purpose == SignUp && {Email, PasswordSetup} <= DoneKinds(b.steps, id)
  {
    hide DoneKinds, EmailTaken;
  }

  lemma OnlyFailingDiscloses(cfg: Config, v: DB, now: Time, id: Id, cid: Id, purpose: Purpose, kind: Kind)
    requires id in v.procs && cid in v.steps
    requires var r := Proceed(cfg, v, now, id, cid, purpose, kind); r.Ok? && r.value.answer == Rejected(AccountExists)
    ensures purpose == SignUp && Proceed(cfg, v, now, id, cid, purpose, kind).value.db == FailRegistration(AcceptStep(v, id, cid, now), id)
  {
    hide Next, EmailTaken, CancelPending, FailRegistration, Enlist;
  }

  lemma FailedRow(v: DB, id: Id, cid: Id, now: Time)
    requires id in v.procs && cid in v.steps
    ensures var b := FailRegistration(AcceptStep(v, id, cid, now), id);
      && SameHolders(v, b) && id in b.procs && b.procs[id].status == Failed && b.procs[id].grant == v.procs[id].grant
  {
    hide CancelPending;
  }

  lemma JudgeLoses(cfg: Config, db: DB, clock: Time, now: Time, id: Id, cid: Id, flow: Id, proof: Proof)
    requires Core(cfg, db, clock) && Admitted(cfg, db, now, id, cid, flow) && db.steps[cid].kind == proof.Method()
    requires var r := Judge(cfg, db, now, id, cid, Verify(cfg, db, now, id, db.procs[id], cid, db.steps[cid], proof));
      r.Ok? && r.value.answer == Rejected(AccountExists)
    ensures var b := Judge(cfg, db, now, id, cid, Verify(cfg, db, now, id, db.procs[id], cid, db.steps[cid], proof)).value.db;
      SameHolders(db, b) && id in b.procs && b.procs[id].status == Failed && b.procs[id].grant.None?
  {
    hide *;
    AdmittedRows(cfg, db, now, id, cid, flow);
    var p, step := db.procs[id], db.steps[cid];
    var verdict := Verify(cfg, db, now, id, p, cid, step, proof);
    VerdictRows(db, id, cid, verdict, proof);
    DisclosingJudge(cfg, db, now, id, cid, verdict);
    var v := verdict.value.db;
    OnlyFailingDiscloses(cfg, v, now, id, cid, p.purpose, step.kind);
    SignUpsProveStages(cfg, db, now, id, cid, flow);
    VerifyStages(cfg, db, now, id, p, cid, step, proof);
    VerifyKeepsAddress(cfg, db, now, id, p, cid, step, proof);
    FailedRow(v, id, cid, now);
    LosersRow(cfg, db, v, Proceed(cfg, v, now, id, cid, p.purpose, step.kind).value.db, clock, id);
  }

  lemma DisclosingJudge(cfg: Config, db: DB, now: Time, id: Id, cid: Id, verdict: Result<Proved>)
    requires id in db.procs && cid in db.steps && Usable(db, id, verdict)
    requires var r := Judge(cfg, db, now, id, cid, verdict); r.Ok? && r.value.answer == Rejected(AccountExists)
    ensures verdict.Ok? && id in verdict.value.db.procs && cid in verdict.value.db.steps
    ensures Judge(cfg, db, now, id, cid, verdict) == Proceed(cfg, verdict.value.db, now, id, cid, db.procs[id].purpose, db.steps[cid].kind)
  {
    hide Proceed, CountFailure;
  }

  lemma SignUpsProveStages(cfg: Config, db: DB, now: Time, id: Id, cid: Id, flow: Id)
    requires Admitted(cfg, db, now, id, cid, flow) && db.procs[id].purpose == SignUp
    ensures SignUpKind(db.steps[cid].kind)
  {
    NextKinds(cfg, db, id, db.procs[id], db.steps[cid].kind);
    hide Next, DoneKinds;
  }

  lemma LosersRow(cfg: Config, a: DB, v: DB, b: DB, clock: Time, id: Id)
    requires Core(cfg, a, clock) && id in a.procs && a.procs[id].status == Pending && SameAddress(a, v, id) && SameHolders(v, b)
    requires id in b.procs && b.procs[id].grant == v.procs[id].grant
    ensures SameHolders(a, b) && b.procs[id].grant.None?
  {
    assert ProcOk(cfg, a.procs[id], clock);
    hide Core;
  }

  /** The sign-up that loses an address to another is over: nothing was created, and it holds no grant. */
  lemma LosingSignUpFails(cfg: Config, db: DB, clock: Time, now: Time, id: Id, cid: Id, flow: Id, who: Principal, proof: Proof)
    requires Core(cfg, db, clock) && AttemptTx(cfg, db, now, id, cid, flow, who, proof).Ok?
    requires AttemptTx(cfg, db, now, id, cid, flow, who, proof).value.answer == Rejected(AccountExists)
    ensures var b := AttemptTx(cfg, db, now, id, cid, flow, who, proof).value.db;
      SameHolders(db, b) && id in b.procs && b.procs[id].status == Failed && b.procs[id].grant.None?
  {
    hide Core, AttemptTx, Judge, Verify, Next;
    AttemptAdmits(cfg, db, now, id, cid, flow, who, proof);
    JudgeLoses(cfg, db, clock, now, id, cid, flow, proof);
  }
}
