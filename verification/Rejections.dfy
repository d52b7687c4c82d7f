/** What a refused proof costs: two counters and two statuses, and nothing else. */
module Rejections {
  import opened Base
  import opened Secrets
  import opened Store
  import opened Answers
  import opened Processes
  import opened Challenges
  import opened OAuth
  import opened Invariant
  import opened FlowActions
  import opened Attempts

  // ---------- one more failure, and nothing else ----------

  /** b is a with one more failure of the process and of its step, and both failed when the budget is spent. */
  ghost predicate OneMoreFailure(cfg: Config, a: DB, b: DB, id: Id, cid: Id) {
    && id in a.procs && id in b.procs && cid in a.steps && cid in b.steps
    && b == a.(procs := b.procs, steps := b.steps)
    && (forall p | p in a.procs || p in b.procs :: p == id || (p in a.procs && p in b.procs && b.procs[p] == a.procs[p]))
    && (forall s | s in a.steps || s in b.steps :: s == cid || (s in a.steps && s in b.steps && b.steps[s] == a.steps[s]))
    && b.procs[id] == a.procs[id].(failures := a.procs[id].failures + 1, status := b.procs[id].status)
    && b.steps[cid] == a.steps[cid].(failures := a.steps[cid].failures + 1, status := b.steps[cid].status)
    && b.procs[id].status == (if b.procs[id].failures == cfg.maxAttempts then Failed else Pending)
    && b.steps[cid].status == (if b.steps[cid].failures == cfg.maxAttempts then Failed else Pending)
  }

  // The budget is spent exactly at the limit: a pending process is below it.
  lemma CountIsOneMore(cfg: Config, db: DB, clock: Time, id: Id, cid: Id)
    requires Core(cfg, db, clock) && StepKeysOk(db.steps, db.supply) && OpenStep(db, id, cid)
    ensures OneMoreFailure(cfg, db, CountFailure(cfg, db, id, cid), id, cid)
    ensures FailureAnswer(cfg, db.procs[id]) == Rejected(if CountFailure(cfg, db, id, cid).procs[id].status == Failed then Attempts else Credentials)
  {
    hide Core, StepKeysOk;
    BelowLimit(cfg, db, clock, id, cid);
    var b := CountFailure(cfg, db, id, cid);
    assert b.procs == db.procs[id := b.procs[id]] && b.steps == db.steps[cid := b.steps[cid]];
    assert b == db.(procs := b.procs, steps := b.steps);
  }

  lemma BelowLimit(cfg: Config, db: DB, clock: Time, id: Id, cid: Id)
    requires Core(cfg, db, clock) && StepKeysOk(db.steps, db.supply) && OpenStep(db, id, cid)
    ensures db.steps[cid].failures <= db.procs[id].failures < cfg.maxAttempts
  {
    hide StepsOk, OneEach, Stages, FailureSum;
    assert ProcOk(cfg, db.procs[id], clock);
    SumBounds(db.steps, id, cid, db.supply);
  }

  // ---------- the outcomes of a proof ----------

  predicate GoesOnOrLoses(c: Commit, id: Id) {
    && id in c.db.procs
    && ((c.answer.Attempted? && c.db.procs[id].status != Failed) || (c.answer == Rejected(AccountExists) && c.db.procs[id].status == Failed))
  }

  /** A step that is accepted leaves its process going on or completed; only a taken address makes it fail. */
  lemma ProceedAnswers(cfg: Config, v: DB, now: Time, id: Id, cid: Id, purpose: Purpose, kind: Kind)
    requires id in v.procs && cid in v.steps && v.procs[id].status == Pending && Proceed(cfg, v, now, id, cid, purpose, kind).Ok?
    ensures GoesOnOrLoses(Proceed(cfg, v, now, id, cid, purpose, kind).value, id)
  {
    hide Next, AddressTaken, CancelPending, Register;
    var d := AcceptStep(v, id, cid, now);
    assert d.procs == v.procs;
    hide AcceptStep;
    if purpose == SignUp {
      SignUpAnswers(cfg, d, now, id, cid, kind);
    } else {
      FactorAnswers(cfg, d, now, id, cid);
    }
  }

  lemma SignUpAnswers(cfg: Config, d: DB, now: Time, id: Id, cid: Id, kind: Kind)
    requires id in d.procs && d.procs[id].status == Pending && AfterSignUpStep(cfg, d, now, id, cid, kind).Ok?
    ensures GoesOnOrLoses(AfterSignUpStep(cfg, d, now, id, cid, kind).value, id)
  {
    hide Next, AddressTaken, GoesOnOrLoses, FailRegistration, Enlist;
    var c := AfterSignUpStep(cfg, d, now, id, cid, kind).value;
    SignUpRows(cfg, d, now, id);
    AnswerFits(c, id);
  }

  lemma SignUpRows(cfg: Config, d: DB, now: Time, id: Id)
    requires id in d.procs
    ensures var b := FailRegistration(d, id); id in b.procs && b.procs[id].status == Failed
    ensures id in d.signups ==> var b := Enlist(cfg, d, id, now); id in b.procs && b.procs[id].status == Completed
  {
    hide CancelPending, Register;
    if id in d.signups {
      RegisterKeepsFlows(d, id);
    }
  }

  lemma RegisterKeepsFlows(d: DB, id: Id)
    requires id in d.signups
    ensures Register(d, id).procs == d.procs
  {
  }

  lemma AnswerFits(c: Commit, id: Id)
    requires id in c.db.procs
    requires (c.answer.Attempted? && c.db.procs[id].status != Failed) || (c.answer == Rejected(AccountExists) && c.db.procs[id].status == Failed)
    ensures GoesOnOrLoses(c, id)
  {
  }

  lemma FinishRow(cfg: Config, d: DB, id: Id, account: Id, now: Time)
    requires id in d.procs
    ensures var b := Finish(cfg, d, id, account, now); id in b.procs && b.procs[id].status == Completed
  {
  }

  lemma FactorAnswers(cfg: Config, d: DB, now: Time, id: Id, cid: Id)
    requires id in d.procs && d.procs[id].status == Pending && AfterFactor(cfg, d, now, id, cid).Ok?
    ensures GoesOnOrLoses(AfterFactor(cfg, d, now, id, cid).value, id)
  {
    hide Next, Finish, GoesOnOrLoses;
    var p := d.procs[id];
    if p.account.Some? {
      FinishRow(cfg, d, id, p.account.value, now);
    }
    AnswerFits(AfterFactor(cfg, d, now, id, cid).value, id);
  }

  lemma VerifyKeepsStatus(cfg: Config, db: DB, now: Time, id: Id, p: Process, cid: Id, step: Step, proof: Proof)
    requires id in db.procs && cid in db.steps && Verify(cfg, db, now, id, p, cid, step, proof).Ok?
    ensures var d := Verify(cfg, db, now, id, p, cid, step, proof).value.db;
      id in d.procs && d.procs[id].status == db.procs[id].status
  {
    hide TotpStep, PasswordAccount, PasswordFits, HasPasskey, AddressTaken;
  }

  /** A committed attempt either was accepted and its process has not failed, or lost its address, or only counts one failure;
      and a counted failure answers that the attempts are spent exactly when it fails the process. */
  lemma AttemptOutcomes(cfg: Config, db: DB, clock: Time, now: Time, id: Id, cid: Id, flow: Id, who: Principal, proof: Proof)
    requires Core(cfg, db, clock) && StepKeysOk(db.steps, db.supply) && AttemptTx(cfg, db, now, id, cid, flow, who, proof).Ok?
    ensures var c := AttemptTx(cfg, db, now, id, cid, flow, who, proof).value;
      && id in c.db.procs
      && (c.answer.Attempted? ==> c.db.procs[id].status != Failed)
      && (c.answer == Rejected(AccountExists) ==> c.db.procs[id].status == Failed)
      && (c.answer == Rejected(Attempts) ==> OneMoreFailure(cfg, db, c.db, id, cid) && c.db.procs[id].status == Failed)
      && (c.answer == Rejected(Credentials) ==> OneMoreFailure(cfg, db, c.db, id, cid) && c.db.procs[id].status == Pending)
      && (c.answer.Attempted? || c.answer in {Rejected(AccountExists), Rejected(Attempts), Rejected(Credentials)})
  {
    hide Core, StepKeysOk, AttemptTx, Verify, Proceed, Next, CountFailure, FailureAnswer, OneMoreFailure;
    AttemptAdmits(cfg, db, now, id, cid, flow, who, proof);
    var p, s := db.procs[id], db.steps[cid];
    var verdict := Verify(cfg, db, now, id, p, cid, s, proof);
    if verdict.Ok? {
      VerifyKeepsStatus(cfg, db, now, id, p, cid, s, proof);
      ProceedAnswers(cfg, verdict.value.db, now, id, cid, p.purpose, s.kind);
    } else {
      CountIsOneMore(cfg, db, clock, id, cid);
      CountedRow(cfg, db, id, cid);
    }
  }

  lemma CountedRow(cfg: Config, db: DB, id: Id, cid: Id)
    requires OpenStep(db, id, cid)
    ensures var d := CountFailure(cfg, db, id, cid); id in d.procs && d.procs[id].status in {Pending, Failed}
  {
  }

  /** The third transaction of a provider attempt counts in the same way. */
  lemma ProviderRejectionOnlyCounts(cfg: Config, db: DB, clock: Time, now: Time, id: Id, cid: Id, flow: Id, who: Principal)
    requires Core(cfg, db, clock) && StepKeysOk(db.steps, db.supply) && RejectProviderTx(cfg, db, now, id, cid, flow, who).Ok?
    ensures var c := RejectProviderTx(cfg, db, now, id, cid, flow, who).value;
      && OneMoreFailure(cfg, db, c.db, id, cid)
      && c.answer == Rejected(if c.db.procs[id].status == Failed then Attempts else Credentials)
  {
    hide Core, StepKeysOk, CountFailure, FailureAnswer, PurposePrincipal, OneMoreFailure;
    CountIsOneMore(cfg, db, clock, id, cid);
  }
}
