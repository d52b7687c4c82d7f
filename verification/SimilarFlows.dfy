/** Processes, steps and proofs: dead rows make no difference. */
module SimilarFlows {
  import opened Base
  import opened Secrets
  import opened Store
  import opened Answers
  import opened Processes
  import opened Challenges
  import opened OAuth
  import opened Invariant
  import opened FlowActions
  import opened Trimming
  import opened Links
  import opened Similarity
  import opened SimilarAccounts

  // ---------- rows of a live process ----------

  lemma SameStep(cfg: Config, a: DB, b: DB, now: Time, id: Id, cid: Id)
    requires Trim(cfg, a, b, now) && id in b.procs
    ensures cid in a.steps && a.steps[cid].process == id <==> cid in b.steps && b.steps[cid].process == id
    ensures cid in b.steps ==> cid in a.steps && b.steps[cid] == a.steps[cid]
  {
    hide TrimRequests, TrimProcs, TrimSessions, TrimSignups, SameShared;
  }

  lemma SameSignup(cfg: Config, a: DB, b: DB, now: Time, id: Id)
    requires Trim(cfg, a, b, now) && id in b.procs
    ensures id in a.signups <==> id in b.signups
    ensures id in b.signups ==> b.signups[id] == a.signups[id]
  {
    hide TrimRequests, TrimProcs, TrimSessions, TrimSteps, SameShared;
  }

  lemma TrimSupply(cfg: Config, a: DB, b: DB, now: Time, n: Id)
    requires Trim(cfg, a, b, now) && a.supply <= n
    ensures Trim(cfg, a.(supply := n), b.(supply := n), now)
  {
    hide Trim;
    TrimShares(cfg, a, b, now);
    TrimSharedChange(cfg, a, b, a.(supply := n), b.(supply := n), now);
  }

  lemma FinishSimilar(cfg: Config, a: DB, b: DB, now: Time, id: Id, account: Id)
    requires Trim(cfg, a, b, now) && id in b.procs
    ensures id in a.procs && Trim(cfg, Finish(cfg, a, id, account, now), Finish(cfg, b, id, account, now), now)
  {
    hide Trim;
    SameRow(cfg, a, b, now, id);
    TrimShares(cfg, a, b, now);
    hide SameShared;
    assert b.supply == a.supply by { TrimSupplies(cfg, a, b, now); }
    var q := Finish(cfg, a, id, account, now).procs[id];
    TrimRow(cfg, a, b, now, id, q);
    TrimSupply(cfg, a.(procs := a.procs[id := q]), b.(procs := b.procs[id := q]), now, a.supply + 1);
  }

  lemma TrimSupplies(cfg: Config, a: DB, b: DB, now: Time)
    requires Trim(cfg, a, b, now)
    ensures b.supply == a.supply
  {
    hide TrimFlows, TrimRequests, Drawn;
  }

  // ---------- starting ----------

  lemma SameReusableOpened(cfg: Config, a: DB, now: Time, purpose: Purpose, who: Principal, account: Id, session: Id, after: Time)
    requires a.supply !in a.procs
    ensures Reusable(Opened(cfg, a, now, purpose, who), account, session, after) <==> Reusable(a, account, session, after)
  {
    var d := Opened(cfg, a, now, purpose, who);
    hide FreshFirst, FreshSecond;
    assert !Evidence(d, a.supply, account, session, after);
    assert forall q | q in a.procs :: Evidence(d, q, account, session, after) <==> Evidence(a, q, account, session, after);
    assert forall q | q in d.procs && q != a.supply :: q in a.procs;
    hide Evidence;
  }

  lemma OpenedSimilar(cfg: Config, a: DB, b: DB, now: Time, purpose: Purpose, who: Principal)
    requires Pair(cfg, a, b, now)
    ensures Trim(cfg, Opened(cfg, a, now, purpose, who), Opened(cfg, b, now, purpose, who), now)
    ensures a.supply !in a.procs && b.supply == a.supply && b.supply !in b.procs
  {
    hide Trim, Linked, ProcsOk, StepsOk, OneEach, Budget, StageOk;
    NextIdIsUnborn(cfg, a, now);
    TrimSupplies(cfg, a, b, now);
    assert a.supply !in a.procs && a.supply !in b.procs;
    hide Inv, Unborn;
    TrimNewProcess(cfg, a, b, now, NewProcess(cfg, a, now, purpose, who), a.supply + 2);
  }

  lemma PurposeView(cfg: Config, a: DB, b: DB, now: Time, who: Principal, purpose: Purpose)
    requires Pair(cfg, a, b, now)
    ensures PurposePrincipal(a, now, who, purpose) <==> PurposePrincipal(b, now, who, purpose)
    ensures PurposePrincipal(a, now, who, purpose) ==>
      var after := now - cfg.reuseTTL; Reusable(a, who.account, who.session, after) <==> Reusable(b, who.account, who.session, after)
  {
    hide Trim, Linked, ProcKeysOk, StepKeysOk, Reusable, ProcsOk, StepsOk;
    PairFacts(cfg, a, b, now);
    hide Inv;
    SamePrincipals(cfg, a, b, now, who, purpose);
    if PurposePrincipal(a, now, who, purpose) {
      SameReusable(cfg, a, b, now, who);
    }
  }

  /** Start, given the purpose. */
  lemma StartIs(cfg: Config, db: DB, now: Time, name: string, who: Principal)
    requires ParsePurpose(name).Ok?
    ensures var purpose := ParsePurpose(name).value;
      var d := Opened(cfg, db, now, purpose, who);
      var next := Next(cfg, d, db.supply, d.procs[db.supply]);
      if Sensitive(purpose) && !(who.Bearer? && PurposePrincipal(db, now, who, purpose)) then StartTx(cfg, db, now, name, who).Err?
      else if next.Err? then StartTx(cfg, db, now, name, who).Err?
      else if Sensitive(purpose) && Reusable(d, who.account, who.session, now - cfg.reuseTTL) then
        StartTx(cfg, db, now, name, who)
        == Ok(Commit(Finish(cfg, d, db.supply, who.account, now), Started(View(db.supply, purpose, Completed, [], Some(d.supply)), db.supply + 1)))
      else StartTx(cfg, db, now, name, who) == Ok(Commit(d, Started(View(db.supply, purpose, Pending, next.value, None), db.supply + 1)))
  {
    hide ParsePurpose, PurposePrincipal, Next, Reusable, NewProcess;
  }

  lemma StartSimilar(cfg: Config, a: DB, b: DB, now: Time, name: string, who: Principal)
    requires Pair(cfg, a, b, now)
    ensures Similar(cfg, StartTx(cfg, a, now, name, who), StartTx(cfg, b, now, name, who), now)
  {
    hide Trim, Pair, PurposePrincipal, Next, Reusable, Opened, ParsePurpose;
    if ParsePurpose(name).Ok? {
      var purpose := ParsePurpose(name).value;
      StartIs(cfg, a, now, name, who);
      StartIs(cfg, b, now, name, who);
      hide StartTx;
      OpenedSimilar(cfg, a, b, now, purpose, who);
      PurposeView(cfg, a, b, now, who, purpose);
      OpenedRow(cfg, a, now, purpose, who);
      OpenedRow(cfg, b, now, purpose, who);
      var c, d := Opened(cfg, a, now, purpose, who), Opened(cfg, b, now, purpose, who);
      SameRow(cfg, c, d, now, a.supply);
      SameNext(cfg, c, d, now, a.supply, c.procs[a.supply]);
      if who.Bearer? {
        SameReusableOpened(cfg, a, now, purpose, who, who.account, who.session, now - cfg.reuseTTL);
        SameReusableOpened(cfg, b, now, purpose, who, who.account, who.session, now - cfg.reuseTTL);
        FinishSimilar(cfg, c, d, now, a.supply, who.account);
      }
      hide Finish;
    }
  }

  lemma OpenedRow(cfg: Config, db: DB, now: Time, purpose: Purpose, who: Principal)
    ensures var d := Opened(cfg, db, now, purpose, who); db.supply in d.procs && d.supply == db.supply + 2
  {
  }

  // ---------- steps ----------

  lemma CancelTrims(a: map<Id, Step>, b: map<Id, Step>, procs: set<Id>, id: Id, kind: Option<Kind>, keep: Option<Id>)
    requires TrimSteps(a, b, procs)
    ensures TrimSteps(CancelPending(a, id, kind, keep), CancelPending(b, id, kind, keep), procs)
    ensures CancelPending(a, id, kind, keep).Keys == a.Keys && CancelPending(b, id, kind, keep).Keys == b.Keys
  {
  }

  lemma PutTrims(a: map<Id, Step>, b: map<Id, Step>, procs: set<Id>, cid: Id, step: Step)
    requires TrimSteps(a, b, procs) && step.process in procs
    ensures TrimSteps(a[cid := step], b[cid := step], procs)
  {
  }

  lemma TrimsSteps(cfg: Config, a: DB, b: DB, now: Time)
    requires Trim(cfg, a, b, now)
    ensures TrimSteps(a.steps, b.steps, b.procs.Keys) && Numbered(a.steps, a.supply) && forall s | s in b.steps :: s in a.steps
  {
    hide TrimRequests, TrimProcs, TrimSessions, TrimSignups, SameShared;
  }

  lemma AddStepSimilar(cfg: Config, a: DB, b: DB, now: Time, id: Id, kind: Kind, step: Step)
    requires Trim(cfg, a, b, now) && id in b.procs && step.process == id
    ensures var cid, n := a.supply, a.supply + 1;
      Trim(cfg, a.(steps := CancelPending(a.steps, id, Some(kind), None)[cid := step], supply := n),
           b.(steps := CancelPending(b.steps, id, Some(kind), None)[cid := step], supply := n), now)
  {
    var cid := a.supply;
    TrimsSteps(cfg, a, b, now);
    hide Trim;
    CancelTrims(a.steps, b.steps, b.procs.Keys, id, Some(kind), None);
    var sa, sb := CancelPending(a.steps, id, Some(kind), None), CancelPending(b.steps, id, Some(kind), None);
    hide CancelPending;
    PutTrims(sa, sb, b.procs.Keys, cid, step);
    assert StepsMove(a, b, sa[cid := step], sb[cid := step], a.supply + 1) by { hide TrimSteps; }
    hide StepsMove, TrimSteps;
    TrimStepsMove(cfg, a, b, now, sa[cid := step], sb[cid := step], a.supply + 1);
  }

  // An existing step of a live process changes.
  lemma PutStepSimilar(cfg: Config, a: DB, b: DB, now: Time, cid: Id, step: Step, n: Id)
    requires Trim(cfg, a, b, now) && cid in b.steps && step.process in b.procs && a.supply <= n
    ensures Trim(cfg, a.(steps := a.steps[cid := step], supply := n), b.(steps := b.steps[cid := step], supply := n), now)
  {
    TrimsSteps(cfg, a, b, now);
    hide Trim;
    PutTrims(a.steps, b.steps, b.procs.Keys, cid, step);
    assert StepsMove(a, b, a.steps[cid := step], b.steps[cid := step], n) by { hide TrimSteps; }
    hide StepsMove, TrimSteps;
    TrimStepsMove(cfg, a, b, now, a.steps[cid := step], b.steps[cid := step], n);
  }

  lemma CreateOAuthSimilar(cfg: Config, a: DB, b: DB, now: Time, cid: Id, step: Step, flow: Id, o: OAuthOptions, libraryOk: bool)
    requires Trim(cfg, a, b, now) && IsProvider(step.kind) && cid in b.steps && step.process in b.procs
    ensures Similar(cfg, CreateOAuth(cfg, a, cid, step, flow, o, libraryOk), CreateOAuth(cfg, b, cid, step, flow, o, libraryOk), now)
  {
    hide Trim, ProviderOf;
    TrimSupplies(cfg, a, b, now);
    var nonce := a.supply;
    PutStepSimilar(cfg, a, b, now, cid, step.(detail := NonceSent(Digest(NonceTag, 0, nonce))), a.supply + 1);
    var state, verifier := a.supply + 1, a.supply + 2;
    var key := Digest(StateTag, 0, state);
    var row := OAuthRequest(ProviderOf(step.kind), Some(cid), None, Digest(BindingTag, 0, flow), o.redirect,
                            Digest(NonceTag, 0, nonce), verifier, step.expires);
    TrimOAuthRow(cfg, a, b, now, key, row);
    TrimSupply(cfg, a.(oauth := a.oauth[key := row]), b.(oauth := b.oauth[key := row]), now, a.supply + 3);
  }

  lemma SendCodeSimilar(cfg: Config, a: DB, b: DB, now: Time, id: Id, cid: Id, step: Step, code: Id)
    requires Trim(cfg, a, b, now) && id in b.procs && cid in b.steps && step.process in b.procs && id in a.signups
    ensures id in b.signups
    ensures Trim(cfg, SendCode(a, id, cid, step, code), SendCode(b, id, cid, step, code), now)
  {
    hide Trim;
    TrimShares(cfg, a, b, now);
    SameSignup(cfg, a, b, now, id);
    var sent := step.(detail := CodeSent(a.signups[id].email, Digest(EmailCodeTag, cid, code)));
    PutStepSimilar(cfg, a, b, now, cid, sent, a.supply);
    var c, d := a.(steps := a.steps[cid := sent], supply := a.supply), b.(steps := b.steps[cid := sent], supply := a.supply);
    TrimSharedChange(cfg, c, d, SendCode(a, id, cid, step, code), SendCode(b, id, cid, step, code), now);
  }

  lemma FillStepSimilar(cfg: Config, a: DB, b: DB, now: Time, id: Id, cid: Id, step: Step, flow: Id, options: OAuthOptions, code: Id,
                        libraryOk: bool)
    requires Trim(cfg, a, b, now) && id in b.procs && cid in b.steps && step.process in b.procs
    ensures Similar(cfg, FillStep(cfg, a, id, cid, step, flow, options, code, libraryOk),
                    FillStep(cfg, b, id, cid, step, flow, options, code, libraryOk), now)
  {
    hide Trim, CreateOAuth, SendCode;
    SameSignup(cfg, a, b, now, id);
    if IsProvider(step.kind) {
      CreateOAuthSimilar(cfg, a, b, now, cid, step, flow, options, libraryOk);
    } else if step.kind == Email && id in a.signups {
      SendCodeSimilar(cfg, a, b, now, id, cid, step, code);
    }
  }

  lemma CreateChallengeSimilar(cfg: Config, a: DB, b: DB, now: Time, id: Id, flow: Id, kind: Kind, who: Principal,
                               options: OAuthOptions, code: Id, libraryOk: bool)
    requires Pair(cfg, a, b, now)
    ensures Similar(cfg, CreateChallengeTx(cfg, a, now, id, flow, kind, who, options, code, libraryOk),
                    CreateChallengeTx(cfg, b, now, id, flow, kind, who, options, code, libraryOk), now)
  {
    hide Trim, Inv, Linked, Load, Next, FillStep, AddStep, Earlier, ProcsOk, StepsOk, ProcKeysOk, StepKeysOk;
    PairFacts(cfg, a, b, now);
    SameLoad(cfg, a, b, now, id, flow, who);
    if Load(a, now, id, flow, who).Ok? {
      var p := Load(a, now, id, flow, who).value;
      SameNext(cfg, a, b, now, id, p);
      var step := Step(id, kind, Pending, 0, Earlier(now + cfg.challengeTTL, p.expires), None, NoDetail);
      AddedSimilar(cfg, a, b, now, id, step);
      FillStepSimilar(cfg, AddStep(a, id, step), AddStep(b, id, step), now, id, a.supply, step, flow, options, code, libraryOk);
    }
  }

  lemma AddedSimilar(cfg: Config, a: DB, b: DB, now: Time, id: Id, step: Step)
    requires Trim(cfg, a, b, now) && id in b.procs && step.process == id
    ensures Trim(cfg, AddStep(a, id, step), AddStep(b, id, step), now)
    ensures id in AddStep(b, id, step).procs && a.supply in AddStep(b, id, step).steps && b.supply == a.supply
  {
    hide Trim, CancelPending;
    TrimSupplies(cfg, a, b, now);
    AddStepSimilar(cfg, a, b, now, id, step.kind, step);
  }

  // ---------- proofs ----------

  ghost predicate SimilarProved(cfg: Config, r: Result<Proved>, t: Result<Proved>, now: Time) {
    && (r.Ok? <==> t.Ok?) && (r.Err? ==> t == r)
    && (r.Ok? ==> t.value.account == r.value.account && Trim(cfg, r.value.db, t.value.db, now))
  }

  lemma BindSimilar(cfg: Config, a: DB, b: DB, now: Time, id: Id, account: Id)
    requires Trim(cfg, a, b, now) && id in b.procs
    ensures id in a.procs && Trim(cfg, Bind(a, id, account), Bind(b, id, account), now)
  {
    hide Trim;
    SameRow(cfg, a, b, now, id);
    TrimRow(cfg, a, b, now, id, a.procs[id].(account := Some(account)));
  }

  lemma StagesSimilar(cfg: Config, a: DB, b: DB, now: Time, id: Id, p: Process, raw: string, password: Store.Password)
    requires Trim(cfg, a, b, now) && id in b.procs && id in a.procs
    ensures SimilarProved(cfg, VerifyRegistration(cfg, a, id, p, raw), VerifyRegistration(cfg, b, id, p, raw), now)
    ensures SimilarProved(cfg, VerifySetup(a, id, p, password), VerifySetup(b, id, p, password), now)
  {
    hide Trim;
    SameSignup(cfg, a, b, now, id);
    TrimSupplies(cfg, a, b, now);
    TrimSignupRow(cfg, a, b, now, id, Signup(cfg.normalize(raw), None));
    if id in a.signups {
      var row := a.signups[id].(password := Some(Bcrypt(password, a.supply)));
      TrimSignupRow(cfg, a, b, now, id, row);
      TrimSupply(cfg, a.(signups := a.signups[id := row]), b.(signups := b.signups[id := row]), now, a.supply + 1);
    }
  }

  lemma SamePasswordAccount(cfg: Config, a: DB, b: DB, p: Process, login: string)
    requires b.accounts == a.accounts && b.supply == a.supply
    ensures PasswordAccount(cfg, b, p, login) == PasswordAccount(cfg, a, p, login)
  {
  }

  lemma FirstFactorsSimilar(cfg: Config, a: DB, b: DB, now: Time, id: Id, p: Process, login: string, password: Store.Password, assertion: Assertion)
    requires Trim(cfg, a, b, now) && id in b.procs && id in a.procs
    ensures SimilarProved(cfg, VerifyPassword(cfg, a, id, p, login, password), VerifyPassword(cfg, b, id, p, login, password), now)
    ensures SimilarProved(cfg, VerifyPasskey(cfg, a, id, p, assertion), VerifyPasskey(cfg, b, id, p, assertion), now)
  {
    hide Trim, PasswordAccount, PasswordFits, HasPasskey, Bind;
    TrimShares(cfg, a, b, now);
    SamePasswordAccount(cfg, a, b, p, login);
    var found := PasswordAccount(cfg, a, p, login);
    if found.Some? {
      BindSimilar(cfg, a, b, now, id, found.value);
    }
    if assertion.Assertion? {
      BindSimilar(cfg, a, b, now, id, assertion.account);
    }
  }

  lemma TotpSimilar(cfg: Config, a: DB, b: DB, now: Time, id: Id, p: Process, digits: string)
    requires Trim(cfg, a, b, now) && id in b.procs && id in a.procs
    ensures SimilarProved(cfg, VerifyTotp(cfg, a, now, id, p, digits), VerifyTotp(cfg, b, now, id, p, digits), now)
  {
    hide Trim, TotpStep;
    TrimShares(cfg, a, b, now);
    if p.account.Some? && p.account.value in a.totp {
      var x := p.account.value;
      var used := TotpStep(cfg.mac, a.totp[x].key, digits, now, a.totp[x].last);
      if used.Some? {
        var rows := a.totp[x := a.totp[x].(last := used.value)];
        TrimSharedChange(cfg, a, b, a.(totp := rows), b.(totp := rows), now);
      }
    }
  }

  lemma BackupSimilar(cfg: Config, a: DB, b: DB, now: Time, id: Id, p: Process, code: Id)
    requires Trim(cfg, a, b, now) && id in b.procs && id in a.procs
    ensures SimilarProved(cfg, VerifyBackup(a, id, p, code), VerifyBackup(b, id, p, code), now)
  {
    hide Trim;
    TrimShares(cfg, a, b, now);
    if p.account.Some? {
      var left := a.backups - {BackupKey(p.account.value, Digest(BackupTag, p.account.value, code))};
      TrimSharedChange(cfg, a, b, a.(backups := left), b.(backups := left), now);
    }
  }

  lemma VerifySimilar(cfg: Config, a: DB, b: DB, now: Time, id: Id, p: Process, cid: Id, step: Step, proof: Proof)
    requires Trim(cfg, a, b, now) && id in b.procs && id in a.procs
    ensures SimilarProved(cfg, Verify(cfg, a, now, id, p, cid, step, proof), Verify(cfg, b, now, id, p, cid, step, proof), now)
  {
    hide Trim, VerifyRegistration, VerifySetup, VerifyPassword, VerifyPasskey, VerifyTotp, VerifyBackup;
    match proof
    case RegistrationProof(raw) => StagesSimilar(cfg, a, b, now, id, p, raw, []);
    case SetupProof(password) => StagesSimilar(cfg, a, b, now, id, p, "", password);
    case PasswordProof(login, password) => FirstFactorsSimilar(cfg, a, b, now, id, p, login, password, Unparsable);
    case PasskeyProof(assertion) => FirstFactorsSimilar(cfg, a, b, now, id, p, "", [], assertion);
    case TotpProof(digits) => TotpSimilar(cfg, a, b, now, id, p, digits);
    case BackupProof(code) => BackupSimilar(cfg, a, b, now, id, p, code);
    case EmailProof(code) =>
    case OtherProof(_) =>
  }

  // ---------- what follows a proof ----------

  lemma CountSimilar(cfg: Config, a: DB, b: DB, now: Time, id: Id, cid: Id)
    requires Trim(cfg, a, b, now) && id in b.procs && cid in b.steps && b.steps[cid].process == id
    ensures id in a.procs && cid in a.steps && Trim(cfg, CountFailure(cfg, a, id, cid), CountFailure(cfg, b, id, cid), now)
    ensures FailureAnswer(cfg, a.procs[id]) == FailureAnswer(cfg, b.procs[id])
  {
    hide Trim;
    SameRow(cfg, a, b, now, id);
    SameStep(cfg, a, b, now, id, cid);
    TrimSupplies(cfg, a, b, now);
    var c, d := CountFailure(cfg, a, id, cid), CountFailure(cfg, b, id, cid);
    TrimRow(cfg, a, b, now, id, c.procs[id]);
    PutStepSimilar(cfg, a.(procs := c.procs), b.(procs := d.procs), now, cid, c.steps[cid], a.supply);
  }

  lemma AcceptSimilar(cfg: Config, a: DB, b: DB, now: Time, id: Id, cid: Id)
    requires Trim(cfg, a, b, now) && id in b.procs && cid in b.steps && b.steps[cid].process == id
    ensures cid in a.steps && Trim(cfg, AcceptStep(a, id, cid, now), AcceptStep(b, id, cid, now), now)
  {
    SameStep(cfg, a, b, now, id, cid);
    TrimsSteps(cfg, a, b, now);
    TrimSupplies(cfg, a, b, now);
    hide Trim, CancelPending;
    var done := a.steps[cid].(status := Completed, completed := Some(now));
    PutTrims(a.steps, b.steps, b.procs.Keys, cid, done);
    var sa, sb := a.steps[cid := done], b.steps[cid := done];
    CancelTrims(sa, sb, b.procs.Keys, id, None, Some(cid));
    var ta, tb := CancelPending(sa, id, None, Some(cid)), CancelPending(sb, id, None, Some(cid));
    assert StepsMove(a, b, ta, tb, a.supply) by { hide TrimSteps; }
    hide StepsMove, TrimSteps;
    TrimStepsMove(cfg, a, b, now, ta, tb, a.supply);
  }

  lemma AfterFactorSimilar(cfg: Config, a: DB, b: DB, now: Time, id: Id, cid: Id)
    requires Trim(cfg, a, b, now) && id in b.procs
    ensures id in a.procs && Similar(cfg, AfterFactor(cfg, a, now, id, cid), AfterFactor(cfg, b, now, id, cid), now)
  {
    hide Trim, Next, Finish;
    SameRow(cfg, a, b, now, id);
    TrimSupplies(cfg, a, b, now);
    SameNext(cfg, a, b, now, id, a.procs[id]);
    if a.procs[id].account.Some? {
      FinishSimilar(cfg, a, b, now, id, a.procs[id].account.value);
    }
  }

  lemma FailRegistrationSimilar(cfg: Config, a: DB, b: DB, now: Time, id: Id)
    requires Trim(cfg, a, b, now) && id in b.procs
    ensures id in a.procs && Trim(cfg, FailRegistration(a, id), FailRegistration(b, id), now)
  {
    TrimsSteps(cfg, a, b, now);
    TrimSupplies(cfg, a, b, now);
    SameRow(cfg, a, b, now, id);
    SameSignup(cfg, a, b, now, id);
    hide Trim, CancelPending;
    CancelTrims(a.steps, b.steps, b.procs.Keys, id, None, None);
    var ta, tb := CancelPending(a.steps, id, None, None), CancelPending(b.steps, id, None, None);
    assert StepsMove(a, b, ta, tb, a.supply) by { hide TrimSteps; }
    hide StepsMove, TrimSteps;
    TrimStepsMove(cfg, a, b, now, ta, tb, a.supply);
    var c, d := a.(steps := ta, supply := a.supply), b.(steps := tb, supply := a.supply);
    var q := a.procs[id].(status := Failed);
    TrimRow(cfg, c, d, now, id, q);
    if id in a.signups {
      TrimSignupRow(cfg, c.(procs := c.procs[id := q]), d.(procs := d.procs[id := q]), now, id, a.signups[id].(password := None));
    }
  }

  lemma EnlistSimilar(cfg: Config, a: DB, b: DB, now: Time, id: Id)
    requires Trim(cfg, a, b, now) && id in b.procs && id in a.signups
    ensures id in a.procs && id in b.signups && Trim(cfg, Enlist(cfg, a, id, now), Enlist(cfg, b, id, now), now)
  {
    hide Trim, Finish;
    SameRow(cfg, a, b, now, id);
    SameSignup(cfg, a, b, now, id);
    TrimShares(cfg, a, b, now);
    TrimSignupRow(cfg, a, b, now, id, a.signups[id]);
    var c, d := a.(signups := a.signups - {id}), b.(signups := b.signups - {id});
    TrimSharedChange(cfg, c, d, Register(a, id), Register(b, id), now);
    FinishSimilar(cfg, Register(a, id), Register(b, id), now, id, a.supply);
  }

  lemma AfterSignUpSimilar(cfg: Config, a: DB, b: DB, now: Time, id: Id, cid: Id, kind: Kind)
    requires Trim(cfg, a, b, now) && id in b.procs
    ensures id in a.procs && Similar(cfg, AfterSignUpStep(cfg, a, now, id, cid, kind), AfterSignUpStep(cfg, b, now, id, cid, kind), now)
  {
    hide Trim, Next, FailRegistration, Enlist, EmailTaken;
    SameRow(cfg, a, b, now, id);
    SameSignup(cfg, a, b, now, id);
    TrimSupplies(cfg, a, b, now);
    SameNext(cfg, a, b, now, id, a.procs[id]);
    FailRegistrationSimilar(cfg, a, b, now, id);
    if id in a.signups {
      SameEmailTaken(a, b, a.signups[id].email);
      EnlistSimilar(cfg, a, b, now, id);
    }
  }

  lemma SameEmailTaken(a: DB, b: DB, email: string)
    requires b.accounts == a.accounts
    ensures EmailTaken(a, email) <==> EmailTaken(b, email)
  {
  }

  lemma ProceedSimilar(cfg: Config, a: DB, b: DB, now: Time, id: Id, cid: Id, purpose: Purpose, kind: Kind)
    requires Trim(cfg, a, b, now) && id in b.procs && cid in b.steps && b.steps[cid].process == id
    ensures id in a.procs && cid in a.steps
    ensures Similar(cfg, Proceed(cfg, a, now, id, cid, purpose, kind), Proceed(cfg, b, now, id, cid, purpose, kind), now)
  {
    hide Trim, AfterFactor, AfterSignUpStep, CancelPending;
    SameRow(cfg, a, b, now, id);
    AcceptSimilar(cfg, a, b, now, id, cid);
    var c, d := AcceptStep(a, id, cid, now), AcceptStep(b, id, cid, now);
    AfterFactorSimilar(cfg, c, d, now, id, cid);
    AfterSignUpSimilar(cfg, c, d, now, id, cid, kind);
  }

  // ---------- attempts ----------

  lemma JudgeSimilar(cfg: Config, a: DB, b: DB, now: Time, id: Id, cid: Id, r: Result<Proved>, t: Result<Proved>)
    requires Trim(cfg, a, b, now) && id in b.procs && cid in b.steps && b.steps[cid].process == id && SimilarProved(cfg, r, t, now)
    requires id in a.procs && cid in a.steps && Usable(a, id, r) && Usable(b, id, t)
    ensures Similar(cfg, Judge(cfg, a, now, id, cid, r), Judge(cfg, b, now, id, cid, t), now)
  {
    hide Trim, Proceed, CountFailure, FailureAnswer;
    SameRow(cfg, a, b, now, id);
    SameStep(cfg, a, b, now, id, cid);
    if r.Err? {
      CountSimilar(cfg, a, b, now, id, cid);
    } else {
      ProceedSimilar(cfg, r.value.db, t.value.db, now, id, cid, a.procs[id].purpose, a.steps[cid].kind);
    }
  }

  /** What an attempt reads before it judges a proof is the same in both states. */
  lemma AttemptView(cfg: Config, a: DB, b: DB, now: Time, id: Id, cid: Id, flow: Id, who: Principal)
    requires Pair(cfg, a, b, now) && Load(a, now, id, flow, who).Ok?
    ensures id in a.procs && id in b.procs && Load(b, now, id, flow, who) == Load(a, now, id, flow, who) == Ok(a.procs[id])
    ensures b.procs[id] == a.procs[id] && Next(cfg, a, id, a.procs[id]) == Next(cfg, b, id, a.procs[id])
    ensures cid in a.steps && a.steps[cid].process == id <==> cid in b.steps && b.steps[cid].process == id
    ensures cid in b.steps ==> cid in a.steps && b.steps[cid] == a.steps[cid]
  {
    hide Trim, Inv, Linked, Next, ProcsOk, StepsOk, ProcKeysOk, StepKeysOk, PurposePrincipal;
    PairFacts(cfg, a, b, now);
    SameLoad(cfg, a, b, now, id, flow, who);
    SameRow(cfg, a, b, now, id);
    SameNext(cfg, a, b, now, id, a.procs[id]);
    SameStep(cfg, a, b, now, id, cid);
  }

  lemma LoadRefused(cfg: Config, a: DB, b: DB, now: Time, id: Id, flow: Id, who: Principal)
    requires Pair(cfg, a, b, now) && Load(a, now, id, flow, who).Err?
    ensures Load(b, now, id, flow, who).Err?
  {
    hide Trim, Inv, Linked, Load, ProcsOk, StepsOk, ProcKeysOk, StepKeysOk;
    PairFacts(cfg, a, b, now);
    SameLoad(cfg, a, b, now, id, flow, who);
  }

  /** The guards of an attempt, once its process is loaded. */
  predicate MayProve(cfg: Config, db: DB, now: Time, id: Id, cid: Id, kind: Kind) {
    && id in db.procs && db.procs[id].status == Pending
    && cid in db.steps && db.steps[cid].process == id
    && db.steps[cid].status == Pending && db.steps[cid].expires > now && db.steps[cid].kind == kind
    && Next(cfg, db, id, db.procs[id]).Ok? && kind in Next(cfg, db, id, db.procs[id]).value
  }

  lemma AttemptIs(cfg: Config, db: DB, now: Time, id: Id, cid: Id, flow: Id, who: Principal, proof: Proof)
    requires id in db.procs && Load(db, now, id, flow, who) == Ok(db.procs[id])
    ensures var r := AttemptTx(cfg, db, now, id, cid, flow, who, proof);
      if MayProve(cfg, db, now, id, cid, proof.Method())
      then r == Judge(cfg, db, now, id, cid, Verify(cfg, db, now, id, db.procs[id], cid, db.steps[cid], proof))
      else r.Err?
  {
    hide Load, Next, Verify, Judge;
  }

  lemma AttemptSimilar(cfg: Config, a: DB, b: DB, now: Time, id: Id, cid: Id, flow: Id, who: Principal, proof: Proof)
    requires Pair(cfg, a, b, now)
    ensures Similar(cfg, AttemptTx(cfg, a, now, id, cid, flow, who, proof), AttemptTx(cfg, b, now, id, cid, flow, who, proof), now)
  {
    hide Trim, Inv, Linked, Load, Next, Verify, Judge, Similar, SimilarProved;
    if Load(a, now, id, flow, who).Err? {
      LoadRefused(cfg, a, b, now, id, flow, who);
      RolledBack(cfg, AttemptTx(cfg, a, now, id, cid, flow, who, proof), AttemptTx(cfg, b, now, id, cid, flow, who, proof), now);
    } else {
      AttemptView(cfg, a, b, now, id, cid, flow, who);
      AttemptIs(cfg, a, now, id, cid, flow, who, proof);
      AttemptIs(cfg, b, now, id, cid, flow, who, proof);
      hide AttemptTx;
      assert MayProve(cfg, a, now, id, cid, proof.Method()) <==> MayProve(cfg, b, now, id, cid, proof.Method());
      if MayProve(cfg, b, now, id, cid, proof.Method()) {
        var p := a.procs[id];
        VerifySimilar(cfg, a, b, now, id, p, cid, a.steps[cid], proof);
        JudgeSimilar(cfg, a, b, now, id, cid, Verify(cfg, a, now, id, p, cid, a.steps[cid], proof),
                     Verify(cfg, b, now, id, p, cid, a.steps[cid], proof));
      } else {
        RolledBack(cfg, AttemptTx(cfg, a, now, id, cid, flow, who, proof), AttemptTx(cfg, b, now, id, cid, flow, who, proof), now);
      }
    }
  }

  lemma RolledBack(cfg: Config, r: Outcome, t: Outcome, now: Time)
    requires r.Err? && t.Err?
    ensures Similar(cfg, r, t, now)
  {
  }

  // ---------- provider attempts ----------

  lemma FinishProviderIs(cfg: Config, db: DB, now: Time, id: Id, cid: Id, flow: Id, who: Principal, kind: Kind, subject: string)
    requires id in db.procs && Load(db, now, id, flow, who) == Ok(db.procs[id])
    ensures var r := FinishProviderTx(cfg, db, now, id, cid, flow, who, kind, subject);
      if MayProve(cfg, db, now, id, cid, kind) && IsProvider(kind)
         && IdentityFits(db, db.procs[id], IdentityOwner(db.identities, db.supply, ProviderOf(kind), subject))
      then r == AcceptIdentity(cfg, db, now, id, cid, IdentityOwner(db.identities, db.supply, ProviderOf(kind), subject).value)
      else r.Err?
  {
    hide Load, Next, IdentityOwner, AcceptIdentity;
  }

  lemma AcceptIdentitySimilar(cfg: Config, a: DB, b: DB, now: Time, id: Id, cid: Id, owner: Id)
    requires Trim(cfg, a, b, now) && id in b.procs && cid in b.steps && b.steps[cid].process == id
    ensures id in a.procs && cid in a.steps
    ensures Similar(cfg, AcceptIdentity(cfg, a, now, id, cid, owner), AcceptIdentity(cfg, b, now, id, cid, owner), now)
  {
    hide Trim, AfterFactor, AcceptStep, Similar;
    SameStep(cfg, a, b, now, id, cid);
    BindSimilar(cfg, a, b, now, id, owner);
    var c, d := Bind(a, id, owner), Bind(b, id, owner);
    AcceptSimilar(cfg, c, d, now, id, cid);
    assert id in AcceptStep(d, id, cid, now).procs by { AcceptKeepsProcs(d, id, cid, now); }
    hide Bind;
    AfterFactorSimilar(cfg, AcceptStep(c, id, cid, now), AcceptStep(d, id, cid, now), now, id, cid);
  }

  lemma AcceptKeepsProcs(db: DB, id: Id, cid: Id, now: Time)
    requires cid in db.steps
    ensures AcceptStep(db, id, cid, now).procs == db.procs
  {
  }

  lemma FinishProviderSimilar(cfg: Config, a: DB, b: DB, now: Time, id: Id, cid: Id, flow: Id, who: Principal, kind: Kind, subject: string)
    requires Pair(cfg, a, b, now)
    ensures Similar(cfg, FinishProviderTx(cfg, a, now, id, cid, flow, who, kind, subject),
                    FinishProviderTx(cfg, b, now, id, cid, flow, who, kind, subject), now)
  {
    hide Trim, Inv, Linked, Load, Next, IdentityOwner, AcceptIdentity, Similar, FinishProviderTx;
    var r, t := FinishProviderTx(cfg, a, now, id, cid, flow, who, kind, subject), FinishProviderTx(cfg, b, now, id, cid, flow, who, kind, subject);
    if Load(a, now, id, flow, who).Err? {
      LoadRefused(cfg, a, b, now, id, flow, who);
      FinishRefused(cfg, a, now, id, cid, flow, who, kind, subject);
      FinishRefused(cfg, b, now, id, cid, flow, who, kind, subject);
      RolledBack(cfg, r, t, now);
    } else {
      AttemptView(cfg, a, b, now, id, cid, flow, who);
      FinishProviderIs(cfg, a, now, id, cid, flow, who, kind, subject);
      FinishProviderIs(cfg, b, now, id, cid, flow, who, kind, subject);
      TrimShares(cfg, a, b, now);
      assert MayProve(cfg, a, now, id, cid, kind) <==> MayProve(cfg, b, now, id, cid, kind);
      if MayProve(cfg, b, now, id, cid, kind) && IsProvider(kind)
         && IdentityFits(b, b.procs[id], IdentityOwner(b.identities, b.supply, ProviderOf(kind), subject)) {
        AcceptIdentitySimilar(cfg, a, b, now, id, cid, IdentityOwner(a.identities, a.supply, ProviderOf(kind), subject).value);
      } else {
        RolledBack(cfg, r, t, now);
      }
    }
  }

  lemma FinishRefused(cfg: Config, db: DB, now: Time, id: Id, cid: Id, flow: Id, who: Principal, kind: Kind, subject: string)
    requires Load(db, now, id, flow, who).Err?
    ensures FinishProviderTx(cfg, db, now, id, cid, flow, who, kind, subject).Err?
  {
    hide Load, Next, IdentityOwner, AcceptIdentity;
  }

  lemma BeginProviderSimilar(cfg: Config, a: DB, b: DB, now: Time, id: Id, cid: Id, flow: Id, who: Principal, kind: Kind, token: ProviderProof)
    requires Pair(cfg, a, b, now)
    ensures Similar(cfg, BeginProviderTx(cfg, a, now, id, cid, flow, who, kind, token),
                    BeginProviderTx(cfg, b, now, id, cid, flow, who, kind, token), now)
  {
    hide Trim, Pair, Load, Next;
    if Load(a, now, id, flow, who).Err? {
      LoadRefused(cfg, a, b, now, id, flow, who);
    } else {
      AttemptView(cfg, a, b, now, id, cid, flow, who);
      assert Trim(cfg, a, b, now) && OAuthOk(a.oauth, a.supply) by { PairOAuth(cfg, a, b, now); }
      if token.AuthorizationCode? {
        var key := Digest(StateTag, 0, token.state);
        SameLiveRequest(cfg, a, b, now, key);
        if key in b.oauth {
          TrimOAuthRow(cfg, a, b, now, key, b.oauth[key]);
        }
      }
    }
  }

  lemma RejectSimilar(cfg: Config, a: DB, b: DB, now: Time, id: Id, cid: Id, flow: Id, who: Principal)
    requires Pair(cfg, a, b, now)
    ensures Similar(cfg, RejectProviderTx(cfg, a, now, id, cid, flow, who), RejectProviderTx(cfg, b, now, id, cid, flow, who), now)
  {
    hide Trim, Inv, Linked, Load, CountFailure, FailureAnswer;
    if Load(a, now, id, flow, who).Err? {
      LoadRefused(cfg, a, b, now, id, flow, who);
    } else {
      AttemptView(cfg, a, b, now, id, cid, flow, who);
      if cid in b.steps && b.steps[cid].process == id {
        CountSimilar(cfg, a, b, now, id, cid);
      }
    }
  }
}
