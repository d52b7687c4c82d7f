/** What an attempt does to the accounts: nothing, or one new account for a finished registration. */
module Registrations {
  import opened Base
  import opened Secrets
  import opened Store
  import opened Answers
  import opened Processes
  import opened Challenges
  import opened Invariant
  import opened Flows
  import opened FlowActions
  import opened Acceptance
  import opened Attempts

  /** b has one account more than a: that of the registration id, under its address, which was free. */
  ghost predicate Enlisted(a: DB, b: DB, id: Id, account: Id) {
    && id in a.procs && a.procs[id].purpose == SignUp && id in a.signups && !EmailTaken(a, a.signups[id].email)
    && a.supply <= account < b.supply
    && account in b.accounts && b.accounts[account].email == a.signups[id].email
    && b.accounts == a.accounts[account := b.accounts[account]]
    && b.outbox == a.outbox + [ProfileCreated(account)]
    && id in b.procs && b.procs[id].status == Completed && b.procs[id].account == Some(account)
    && StagesDone(DoneKinds(b.steps, id))
  }

  /** Nobody joined or left, and nothing was queued. */
  predicate SameHolders(a: DB, b: DB) {
    b.accounts == a.accounts && b.outbox == a.outbox && a.supply <= b.supply
  }

  /** The account a completed process ended on. */
  function HolderOf(b: DB, id: Id): Id {
    if id in b.procs && b.procs[id].account.Some? then b.procs[id].account.value else 0
  }

  lemma EnlistMakes(cfg: Config, d: DB, id: Id, now: Time)
    requires id in d.procs && d.procs[id].purpose == SignUp && id in d.signups && !AddressTaken(d, id)
    requires StagesDone(DoneKinds(d.steps, id))
    ensures Enlisted(d, Enlist(cfg, d, id, now), id, d.supply)
    ensures HolderOf(Enlist(cfg, d, id, now), id) == d.supply && Enlist(cfg, d, id, now).steps == d.steps
  {
    hide EmailTaken, DoneKinds;
  }

  lemma AfterSignUpAccounts(cfg: Config, d: DB, now: Time, id: Id, cid: Id, kind: Kind)
    requires id in d.procs && d.procs[id].purpose == SignUp && d.procs[id].status == Pending
    ensures var b := Settle(d, AfterSignUpStep(cfg, d, now, id, cid, kind)).db;
      SameHolders(d, b) || (Enlisted(d, b, id, HolderOf(b, id)) && b.steps == d.steps)
  {
    if AfterSignUpStep(cfg, d, now, id, cid, kind).Ok? {
      AfterSignUpDecides(cfg, d, now, id, cid, kind);
      hide AfterSignUpStep;
      if id in d.signups && !AddressTaken(d, id) && StagesDone(DoneKinds(d.steps, id)) {
        EnlistMakes(cfg, d, id, now);
      }
      hide EmailTaken, DoneKinds, Enlist, Enlisted, HolderOf;
    }
  }

  /** The proof kept the registered address. */
  predicate SameAddress(a: DB, v: DB, id: Id) {
    && a.supply <= v.supply && v.procs == a.procs && v.accounts == a.accounts && v.outbox == a.outbox
    && (id in v.signups && id in a.signups ==> v.signups[id].email == a.signups[id].email)
  }

  lemma VerifyKeepsAddress(cfg: Config, db: DB, now: Time, id: Id, p: Process, cid: Id, step: Step, proof: Proof)
    requires id in db.procs && SignUpKind(proof.Method()) && Verify(cfg, db, now, id, p, cid, step, proof).Ok?
    ensures SameAddress(db, Verify(cfg, db, now, id, p, cid, step, proof).value.db, id)
  {
    hide VerifyPassword, VerifyTotp, VerifyBackup, VerifyPasskey;
  }

  lemma EnlistedBefore(a: DB, d: DB, b: DB, id: Id, kind: Kind)
    requires id in a.procs && a.procs[id].status == Pending && SameAddress(a, d, id) && OfferedStage(DoneKinds(a.steps, id), id in a.signups, kind)
    requires SignUpStage(a.procs[id], DoneKinds(a.steps, id), id in a.signups, Enrolled(a.procs[id], a.totp))
    requires DoneKinds(d.steps, id) == DoneKinds(a.steps, id) + {kind} && b.steps == d.steps
    requires Enlisted(d, b, id, HolderOf(b, id))
    ensures Enlisted(a, b, id, HolderOf(b, id))
  {
    hide DoneKinds;
    assert id in a.signups;
    assert EmailTaken(a, a.signups[id].email) <==> EmailTaken(d, d.signups[id].email);
    hide EmailTaken, SignUpStage, OfferedStage;
  }

  lemma StageAccounts(cfg: Config, db: DB, clock: Time, now: Time, id: Id, cid: Id, flow: Id, proof: Proof)
    requires Core(cfg, db, clock) && clock <= now
    requires Admitted(cfg, db, now, id, cid, flow) && db.steps[cid].kind == proof.Method() && db.procs[id].purpose == SignUp
    requires Verify(cfg, db, now, id, db.procs[id], cid, db.steps[cid], proof).Ok?
    ensures var b := Settle(db, Judge(cfg, db, now, id, cid, Verify(cfg, db, now, id, db.procs[id], cid, db.steps[cid], proof))).db;
      SameHolders(db, b) || Enlisted(db, b, id, HolderOf(b, id))
  {
    var p, kind := db.procs[id], proof.Method();
    var v := Verify(cfg, db, now, id, p, cid, db.steps[cid], proof).value.db;
    NextStage(cfg, db, id, p, kind);
    NextKinds(cfg, db, id, p, kind);
    VerifyStages(cfg, db, now, id, p, cid, db.steps[cid], proof);
    VerifyKeepsAddress(cfg, db, now, id, p, cid, db.steps[cid], proof);
    hide Verify, Next;
    StageAdvances(db, v, id, cid, kind, now);
    var d := AcceptStep(v, id, cid, now);
    AdvancedDone(db, d, id, cid, now);
    assert d == v.(steps := d.steps);
    hide AcceptStep;
    AfterSignUpAccounts(cfg, d, now, id, cid, kind);
    var b := Settle(d, AfterSignUpStep(cfg, d, now, id, cid, kind)).db;
    hide AfterSignUpStep, Advanced;
    if Enlisted(d, b, id, HolderOf(b, id)) {
      FlowOfCore(cfg, db, id, clock);
      assert SignUpStage(p, DoneKinds(db.steps, id), id in db.signups, Enrolled(p, db.totp));
      hide Core, FlowOk, SignUpStage, StageProved;
      EnlistedBefore(db, d, b, id, kind);
    }
    hide Enlisted;
  }

  lemma VerifyKeepsHolders(cfg: Config, db: DB, now: Time, id: Id, p: Process, cid: Id, step: Step, proof: Proof)
    requires id in db.procs && !SignUpKind(proof.Method()) && Verify(cfg, db, now, id, p, cid, step, proof).Ok?
    ensures SameHolders(db, Verify(cfg, db, now, id, p, cid, step, proof).value.db)
  {
    hide VerifyRegistration, VerifySetup, TotpStep, PasswordAccount, PasswordFits, HasPasskey;
  }

  lemma AcceptKeepsHolders(cfg: Config, v: DB, now: Time, id: Id, cid: Id)
    requires id in v.procs && cid in v.steps
    ensures SameHolders(v, Settle(v, AfterFactor(cfg, AcceptStep(v, id, cid, now), now, id, cid)).db)
  {
    var d := AcceptStep(v, id, cid, now);
    assert SameHolders(v, d) && id in d.procs;
    hide AcceptStep, Next;
  }

  lemma FactorAccounts(cfg: Config, db: DB, now: Time, id: Id, cid: Id, flow: Id, proof: Proof)
    requires Admitted(cfg, db, now, id, cid, flow) && db.steps[cid].kind == proof.Method() && db.procs[id].purpose != SignUp
    requires Verify(cfg, db, now, id, db.procs[id], cid, db.steps[cid], proof).Ok?
    ensures var b := Settle(db, Judge(cfg, db, now, id, cid, Verify(cfg, db, now, id, db.procs[id], cid, db.steps[cid], proof))).db;
      SameHolders(db, b)
  {
    var p := db.procs[id];
    NextKinds(cfg, db, id, p, proof.Method());
    VerifyKeepsHolders(cfg, db, now, id, p, cid, db.steps[cid], proof);
    var v := Verify(cfg, db, now, id, p, cid, db.steps[cid], proof).value.db;
    hide Next, Verify;
    AcceptKeepsHolders(cfg, v, now, id, cid);
    hide AfterFactor, AcceptStep;
  }

  lemma RejectedAccounts(cfg: Config, db: DB, now: Time, id: Id, cid: Id, verdict: Result<Proved>)
    requires id in db.procs && cid in db.steps && verdict.Err?
    ensures SameHolders(db, Settle(db, Judge(cfg, db, now, id, cid, verdict)).db)
  {
    hide FailureAnswer;
  }

  lemma JudgeAccounts(cfg: Config, db: DB, clock: Time, now: Time, id: Id, cid: Id, flow: Id, proof: Proof)
    requires Core(cfg, db, clock) && clock <= now && Admitted(cfg, db, now, id, cid, flow) && db.steps[cid].kind == proof.Method()
    ensures var b := Settle(db, Judge(cfg, db, now, id, cid, Verify(cfg, db, now, id, db.procs[id], cid, db.steps[cid], proof))).db;
      SameHolders(db, b) || Enlisted(db, b, id, HolderOf(b, id))
  {
    var verdict := Verify(cfg, db, now, id, db.procs[id], cid, db.steps[cid], proof);
    if verdict.Err? {
      RejectedAccounts(cfg, db, now, id, cid, verdict);
      hide *;
    } else if db.procs[id].purpose == SignUp {
      StageAccounts(cfg, db, clock, now, id, cid, flow, proof);
      hide *;
    } else {
      FactorAccounts(cfg, db, now, id, cid, flow, proof);
      hide *;
    }
  }

  lemma AttemptAccounts(cfg: Config, db: DB, clock: Time, now: Time, id: Id, cid: Id, flow: Id, who: Principal, proof: Proof)
    requires Core(cfg, db, clock) && clock <= now
    ensures var b := Settle(db, AttemptTx(cfg, db, now, id, cid, flow, who, proof)).db;
      SameHolders(db, b) || Enlisted(db, b, id, HolderOf(b, id))
  {
    hide AttemptTx, Enlisted, HolderOf, Core, Judge, Verify, Next;
    if AttemptTx(cfg, db, now, id, cid, flow, who, proof).Ok? {
      AttemptAdmits(cfg, db, now, id, cid, flow, who, proof);
      JudgeAccounts(cfg, db, clock, now, id, cid, flow, proof);
    }
  }
}
