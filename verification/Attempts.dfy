/** Attempts as whole transactions: what they admit, and that they keep the core of the invariant. */
module Attempts {
  import opened Base
  import opened Secrets
  import opened Store
  import opened Processes
  import opened Challenges
  import opened OAuth
  import opened Invariant
  import opened FlowActions
  import opened Acceptance

  /** The process and its step are live, pending and offered at this instant. */
  ghost predicate Admitted(cfg: Config, db: DB, now: Time, id: Id, cid: Id, flow: Id) {
    && OpenStep(db, id, cid)
    && db.procs[id].invalid.None? && db.procs[id].expires > now && db.procs[id].flow == Digest(FlowTag, 0, flow)
    && Next(cfg, db, id, db.procs[id]).Ok? && db.steps[cid].kind in Next(cfg, db, id, db.procs[id]).value
  }

  lemma AttemptAdmits(cfg: Config, db: DB, now: Time, id: Id, cid: Id, flow: Id, who: Principal, proof: Proof)
    requires AttemptTx(cfg, db, now, id, cid, flow, who, proof).Ok?
    ensures Admitted(cfg, db, now, id, cid, flow) && db.steps[cid].expires > now && db.steps[cid].kind == proof.Method()
    ensures AttemptTx(cfg, db, now, id, cid, flow, who, proof)
         == Judge(cfg, db, now, id, cid, Verify(cfg, db, now, id, db.procs[id], cid, db.steps[cid], proof))
  {
    hide Next, PurposePrincipal, Verify, Judge;
  }

  lemma FinishAdmits(cfg: Config, db: DB, now: Time, id: Id, cid: Id, flow: Id, who: Principal, kind: Kind, subject: string)
    requires FinishProviderTx(cfg, db, now, id, cid, flow, who, kind, subject).Ok?
    ensures Admitted(cfg, db, now, id, cid, flow) && db.steps[cid].expires > now && db.steps[cid].kind == kind && IsProvider(kind)
    ensures IdentityFits(db, db.procs[id], IdentityOwner(db.identities, db.supply, ProviderOf(kind), subject))
    ensures FinishProviderTx(cfg, db, now, id, cid, flow, who, kind, subject)
         == AcceptIdentity(cfg, db, now, id, cid, IdentityOwner(db.identities, db.supply, ProviderOf(kind), subject).value)
  {
    hide Next, PurposePrincipal, AcceptIdentity, IdentityOwner;
  }

  // A sign-in has no account before its first factor, so a first factor never rebinds a process.
  lemma FirstFactorBindsOnce(cfg: Config, db: DB, id: Id, cid: Id, clock: Time)
    requires Core(cfg, db, clock) && OpenStep(db, id, cid)
    requires Next(cfg, db, id, db.procs[id]).Ok? && db.steps[cid].kind in Next(cfg, db, id, db.procs[id]).value
    requires db.procs[id].purpose != SignUp
    ensures OfferedFactor(db.procs[id], DoneKinds(db.steps, id), db.steps[cid].kind)
    ensures db.procs[id].account.Some? ==> Sensitive(db.procs[id].purpose) || !IsFirstFactor(db.steps[cid].kind)
  {
    NextFactor(cfg, db, id, db.procs[id], db.steps[cid].kind);
    assert StageOk(id, db.procs[id], db.steps, db.signups, db.totp);
    hide DoneKinds, Next, ProcsOk, StepsOk, OneEach, Budget, HasSteps;
  }

  lemma JudgeFactor(cfg: Config, db: DB, clock: Time, now: Time, id: Id, cid: Id, flow: Id, proof: Proof)
    requires Core(cfg, db, clock) && clock <= now && StepKeysOk(db.steps, db.supply)
    requires Admitted(cfg, db, now, id, cid, flow) && db.steps[cid].kind == proof.Method() && db.procs[id].purpose != SignUp
    requires Verify(cfg, db, now, id, db.procs[id], cid, db.steps[cid], proof).Ok?
    ensures var r := Judge(cfg, db, now, id, cid, Verify(cfg, db, now, id, db.procs[id], cid, db.steps[cid], proof));
      r.Ok? && Worked(cfg, db, r.value.db, id, cid, now)
  {
    var p := db.procs[id];
    var v := Verify(cfg, db, now, id, p, cid, db.steps[cid], proof).value.db;
    FirstFactorBindsOnce(cfg, db, id, cid, clock);
    NextKinds(cfg, db, id, p, db.steps[cid].kind);
    VerifyBinds(cfg, db, now, id, p, cid, db.steps[cid], proof);
    FactorKeepsCore(cfg, db, v, id, cid, clock, now);
    hide Verify, AfterFactor, AcceptStep, Core, StepKeysOk, Next, OfferedFactor, Bound, Worked;
  }

  lemma JudgeStage(cfg: Config, db: DB, clock: Time, now: Time, id: Id, cid: Id, flow: Id, proof: Proof)
    requires Core(cfg, db, clock) && clock <= now && StepKeysOk(db.steps, db.supply) && Numbered(db.totp, db.supply)
    requires Admitted(cfg, db, now, id, cid, flow) && db.steps[cid].kind == proof.Method() && db.procs[id].purpose == SignUp
    requires Verify(cfg, db, now, id, db.procs[id], cid, db.steps[cid], proof).Ok?
    ensures var r := Judge(cfg, db, now, id, cid, Verify(cfg, db, now, id, db.procs[id], cid, db.steps[cid], proof));
      r.Ok? ==> Worked(cfg, db, r.value.db, id, cid, now)
  {
    var p := db.procs[id];
    var v := Verify(cfg, db, now, id, p, cid, db.steps[cid], proof).value.db;
    NextStage(cfg, db, id, p, db.steps[cid].kind);
    NextKinds(cfg, db, id, p, db.steps[cid].kind);
    VerifyStages(cfg, db, now, id, p, cid, db.steps[cid], proof);
    SignUpKeepsCore(cfg, db, v, id, cid, db.steps[cid].kind, clock, now);
    hide Verify, AfterSignUpStep, AcceptStep, Core, StepKeysOk, Next, OfferedStage, StageProved, Worked;
  }

  lemma RejectedKeepsCore(cfg: Config, db: DB, clock: Time, now: Time, id: Id, cid: Id, verdict: Result<Proved>)
    requires Core(cfg, db, clock) && clock <= now && StepKeysOk(db.steps, db.supply) && verdict.Err?
    requires OpenStep(db, id, cid) && db.procs[id].invalid.None?
    ensures var r := Judge(cfg, db, now, id, cid, verdict);
      r.Ok? ==> Worked(cfg, db, r.value.db, id, cid, now)
  {
    CountKeepsCore(cfg, db, id, cid, clock, now);
    hide Core, StepKeysOk, CountFailure, FailureAnswer, Advanced;
  }

  lemma JudgeKeepsCore(cfg: Config, db: DB, clock: Time, now: Time, id: Id, cid: Id, flow: Id, proof: Proof)
    requires Core(cfg, db, clock) && clock <= now && StepKeysOk(db.steps, db.supply) && Numbered(db.totp, db.supply)
    requires Admitted(cfg, db, now, id, cid, flow) && db.steps[cid].kind == proof.Method()
    ensures var r := Judge(cfg, db, now, id, cid, Verify(cfg, db, now, id, db.procs[id], cid, db.steps[cid], proof));
      r.Ok? ==> Worked(cfg, db, r.value.db, id, cid, now)
  {
    var verdict := Verify(cfg, db, now, id, db.procs[id], cid, db.steps[cid], proof);
    hide Core, StepKeysOk, Next, Verify, Judge, Worked;
    if verdict.Err? {
      RejectedKeepsCore(cfg, db, clock, now, id, cid, verdict);
    } else if db.procs[id].purpose == SignUp {
      JudgeStage(cfg, db, clock, now, id, cid, flow, proof);
    } else {
      JudgeFactor(cfg, db, clock, now, id, cid, flow, proof);
    }
  }

  lemma AttemptKeepsCore(cfg: Config, db: DB, clock: Time, now: Time, id: Id, cid: Id, flow: Id, who: Principal, proof: Proof)
    requires Core(cfg, db, clock) && clock <= now && StepKeysOk(db.steps, db.supply) && Numbered(db.totp, db.supply)
    ensures var r := AttemptTx(cfg, db, now, id, cid, flow, who, proof);
      r.Ok? ==> Worked(cfg, db, r.value.db, id, cid, now)
  {
    hide Core, StepKeysOk, Next, AttemptTx, Verify, Judge, Worked;
    if AttemptTx(cfg, db, now, id, cid, flow, who, proof).Ok? {
      AttemptAdmits(cfg, db, now, id, cid, flow, who, proof);
      JudgeKeepsCore(cfg, db, clock, now, id, cid, flow, proof);
    }
  }

  lemma IdentityBinds(cfg: Config, db: DB, id: Id, cid: Id, owner: Id)
    requires id in db.procs && cid in db.steps && IdentityFits(db, db.procs[id], Some(owner))
    requires (db.procs[id].account.Some? ==> Sensitive(db.procs[id].purpose))
    ensures Bound(db, Bind(db, id, owner), id)
  {
  }

  lemma IdentityKeepsCore(cfg: Config, db: DB, clock: Time, now: Time, id: Id, cid: Id, flow: Id, owner: Id)
    requires Core(cfg, db, clock) && clock <= now && StepKeysOk(db.steps, db.supply)
    requires Admitted(cfg, db, now, id, cid, flow) && IsProvider(db.steps[cid].kind) && IdentityFits(db, db.procs[id], Some(owner))
    ensures var r := AcceptIdentity(cfg, db, now, id, cid, owner);
      r.Ok? ==> Worked(cfg, db, r.value.db, id, cid, now)
  {
    NextKinds(cfg, db, id, db.procs[id], db.steps[cid].kind);
    hide Next;
    FirstFactorBindsOnce(cfg, db, id, cid, clock);
    hide Core, StepKeysOk;
    IdentityBinds(cfg, db, id, cid, owner);
    hide OfferedFactor, Bound, IdentityFits;
    FactorKeepsCore(cfg, db, Bind(db, id, owner), id, cid, clock, now);
    hide AfterFactor, AcceptStep, Bind, Worked;
  }

  lemma FinishKeepsCore(cfg: Config, db: DB, clock: Time, now: Time, id: Id, cid: Id, flow: Id, who: Principal, kind: Kind, subject: string)
    requires Core(cfg, db, clock) && clock <= now && StepKeysOk(db.steps, db.supply)
    ensures var r := FinishProviderTx(cfg, db, now, id, cid, flow, who, kind, subject);
      r.Ok? ==> Worked(cfg, db, r.value.db, id, cid, now)
  {
    hide Core, StepKeysOk, Worked;
    if FinishProviderTx(cfg, db, now, id, cid, flow, who, kind, subject).Ok? {
      FinishAdmits(cfg, db, now, id, cid, flow, who, kind, subject);
      hide FinishProviderTx, Admitted, AcceptIdentity;
      IdentityKeepsCore(cfg, db, clock, now, id, cid, flow, IdentityOwner(db.identities, db.supply, ProviderOf(kind), subject).value);
      hide IdentityOwner;
    }
    hide FinishProviderTx;
  }

  lemma RejectKeepsCore(cfg: Config, db: DB, clock: Time, now: Time, id: Id, cid: Id, flow: Id, who: Principal)
    requires Core(cfg, db, clock) && clock <= now && StepKeysOk(db.steps, db.supply)
    ensures var r := RejectProviderTx(cfg, db, now, id, cid, flow, who);
      r.Ok? ==> Worked(cfg, db, r.value.db, id, cid, now)
  {
    hide Core, StepKeysOk, PurposePrincipal, CountFailure, FailureAnswer, Advanced;
    if RejectProviderTx(cfg, db, now, id, cid, flow, who).Ok? {
      CountKeepsCore(cfg, db, id, cid, clock, now);
    }
  }
}
