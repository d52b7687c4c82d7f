/** An accepted proof: its step is completed, its alternatives cancelled, and the process moves on, completes or fails. */
module Acceptance {
  import opened Base
  import opened Secrets
  import opened Store
  import opened Processes
  import opened Challenges
  import opened Invariant
  import opened Flows
  import opened FlowActions

  /** The step cid of the process was accepted; b is what the transaction made of it. */
  ghost predicate Advanced(a: DB, b: DB, id: Id, cid: Id, now: Time) {
    && OpenStep(a, id, cid)
    && id in b.procs && b.procs == a.procs[id := b.procs[id]]
    && b.steps == AcceptStep(a, id, cid, now).steps
    && (forall r | r != id :: r in b.signups <==> r in a.signups)
    && b.totp.Keys == a.totp.Keys && a.supply <= b.supply
  }

  lemma AdvancedFocus(a: DB, b: DB, id: Id, cid: Id, now: Time)
    requires Advanced(a, b, id, cid, now) && StepKeysOk(a.steps, a.supply)
    ensures Focus(a, b, id) && StepKeysOk(b.steps, b.supply)
  {
  }

  lemma AdvancedDone(a: DB, b: DB, id: Id, cid: Id, now: Time)
    requires Advanced(a, b, id, cid, now)
    ensures DoneKinds(b.steps, id) == DoneKinds(a.steps, id) + {a.steps[cid].kind}
    ensures FailureSum(b.steps, id, b.supply) == FailureSum(a.steps, id, b.supply)
  {
    assert forall s | s in a.steps && s != cid ::
      s in b.steps && (DoneStep(b.steps[s], id) <==> DoneStep(a.steps[s], id)) && b.steps[s].kind == a.steps[s].kind;
    assert DoneStep(b.steps[cid], id) && b.steps[cid].kind == a.steps[cid].kind;
    assert !DoneStep(a.steps[cid], id);
    SumAgrees(a.steps, b.steps, id, b.supply);
  }

  /** Completing a step of this kind would not complete its slot twice. */
  predicate SlotFree(done: set<Kind>, kind: Kind) {
    forall k | k in done :: Slot(k) != Slot(kind)
  }

  lemma AdvancedOneEach(a: DB, b: DB, id: Id, cid: Id, now: Time)
    requires Advanced(a, b, id, cid, now) && OneEachOf(a.steps, id)
    requires SlotFree(DoneKinds(a.steps, id), a.steps[cid].kind)
    ensures OneEachOf(b.steps, id)
  {
    assert forall s | s in a.steps && DoneStep(a.steps[s], id) :: a.steps[s].kind in DoneKinds(a.steps, id);
    assert forall s | s in b.steps && s != cid && DoneStep(b.steps[s], id) :: s in a.steps && b.steps[s] == a.steps[s];
  }

  /** How the row of the process may come out of an accepted proof. */
  predicate Moved(p: Process, q: Process, now: Time) {
    && q == p.(status := q.status, account := q.account, completed := q.completed, grant := q.grant)
    && p.status == Pending && p.invalid.None? && (p.account.Some? ==> q.account == p.account)
    && (q.status == Pending || q.status == Completed || (q.status == Failed && p.purpose == SignUp))
    && (if q.status == Completed then q.completed == Some(now) && q.account.Some? else q.completed == p.completed && q.grant == p.grant)
    && (q.purpose == SignUp && q.status != Completed ==> q.account == p.account)
  }

  lemma AdvancedSteps(cfg: Config, a: DB, b: DB, id: Id, cid: Id, clock: Time, now: Time)
    requires Advanced(a, b, id, cid, now) && FlowOk(cfg, a, id, clock) && clock <= now && Moved(a.procs[id], b.procs[id], now)
    ensures forall s | s in b.steps && b.steps[s].process == id :: StepOk(b.steps[s], b.procs[id], now)
  {
    hide StageOk, OneEachOf, FailureSum;
  }

  lemma AdvancedProc(cfg: Config, p: Process, q: Process, clock: Time, now: Time)
    requires ProcOk(cfg, p, clock) && clock <= now && Moved(p, q, now)
    ensures ProcOk(cfg, q, now)
  {
  }

  lemma AdvancedFlow(cfg: Config, a: DB, b: DB, id: Id, cid: Id, clock: Time, now: Time)
    requires Advanced(a, b, id, cid, now) && FlowOk(cfg, a, id, clock) && clock <= now && Moved(a.procs[id], b.procs[id], now)
    requires SlotFree(DoneKinds(a.steps, id), a.steps[cid].kind) && StepKeysOk(a.steps, a.supply)
    requires StageOk(id, b.procs[id], b.steps, b.signups, b.totp)
    ensures FlowOk(cfg, b, id, now)
  {
    AdvancedDone(a, b, id, cid, now);
    SumExtends(a.steps, id, a.supply, b.supply);
    AdvancedSteps(cfg, a, b, id, cid, clock, now);
    AdvancedOneEach(a, b, id, cid, now);
    AdvancedProc(cfg, a.procs[id], b.procs[id], clock, now);
    hide StageOk, DoneKinds, StepOk, OneEachOf, FailureSum, HasSteps, ProcOk, SlotFree, AcceptStep;
  }

  /** All an attempt can come to: a wrong proof is counted, or the step is accepted and the process moves. */
  ghost predicate Worked(cfg: Config, a: DB, b: DB, id: Id, cid: Id, now: Time) {
    && OpenStep(a, id, cid) && a.procs[id].invalid.None?
    && (b == CountFailure(cfg, a, id, cid) || (Advanced(a, b, id, cid, now) && Moved(a.procs[id], b.procs[id], now)))
    && Core(cfg, b, now) && StepKeysOk(b.steps, b.supply)
  }

  lemma AdvancedKeepsCore(cfg: Config, a: DB, b: DB, id: Id, cid: Id, clock: Time, now: Time)
    requires Core(cfg, a, clock) && clock <= now && StepKeysOk(a.steps, a.supply)
    requires Advanced(a, b, id, cid, now) && Moved(a.procs[id], b.procs[id], now)
    requires SlotFree(DoneKinds(a.steps, id), a.steps[cid].kind) && StageOk(id, b.procs[id], b.steps, b.signups, b.totp)
    ensures Worked(cfg, a, b, id, cid, now)
  {
    FlowOfCore(cfg, a, id, clock);
    AdvancedFlow(cfg, a, b, id, cid, clock, now);
    AdvancedFocus(a, b, id, cid, now);
    hide Core, StepKeysOk, FlowOk, Focus, Advanced, OpenStep, Moved, StageOk, SlotFree, CountFailure;
    FocusKeepsCore(cfg, a, b, id, clock, now);
    assert OpenStep(a, id, cid) && a.procs[id].invalid.None? by { OpenAdvanced(a, b, id, cid, now); }
  }

  lemma OpenAdvanced(a: DB, b: DB, id: Id, cid: Id, now: Time)
    requires Advanced(a, b, id, cid, now) && Moved(a.procs[id], b.procs[id], now)
    ensures OpenStep(a, id, cid) && a.procs[id].invalid.None?
  {
  }

  // ---------- first and second factors ----------

  /** A factor was proved: the process is bound to an account, for good. */
  ghost predicate Bound(a: DB, v: DB, id: Id) {
    && id in a.procs && id in v.procs
    && v.procs == a.procs[id := a.procs[id].(account := v.procs[id].account)]
    && v.procs[id].account.Some? && (a.procs[id].account.Some? ==> v.procs[id].account == a.procs[id].account)
    && v.steps == a.steps && v.signups == a.signups && v.totp.Keys == a.totp.Keys && a.supply <= v.supply
  }

  /** What Next offered when the factor was accepted. */
  predicate OfferedFactor(p: Process, done: set<Kind>, kind: Kind) {
    && !SignUpKind(kind)
    && if IsFirstFactor(kind) then !HasFirst(done) else HasFirst(done) && !HasSecond(done) && p.account.Some?
  }

  lemma NextFactor(cfg: Config, db: DB, id: Id, p: Process, kind: Kind)
    requires p.purpose != SignUp && Next(cfg, db, id, p).Ok? && kind in Next(cfg, db, id, p).value
    ensures OfferedFactor(p, DoneKinds(db.steps, id), kind)
  {
    hide DoneKinds;
  }

  lemma FactorSlotFree(p: Process, done: set<Kind>, kind: Kind)
    requires OfferedFactor(p, done, kind) && forall k | k in done :: !SignUpKind(k)
    ensures SlotFree(done, kind)
  {
  }

  /** The row after a factor: pending while an enrolled account still owes its second, else completed. */
  predicate FactorMoved(p: Process, q: Process, done: set<Kind>, enrolled: bool, now: Time) {
    && Moved(p, q, now) && q.account.Some?
    && (q.status == Pending ==> enrolled && !HasSecond(done))
    && (q.status == Completed ==> !enrolled || HasSecond(done))
  }

  lemma FactorStageMoves(p: Process, q: Process, done: set<Kind>, kind: Kind, derived: bool, derived': bool, enrolled: bool, enrolled': bool,
                         now: Time)
    requires p.purpose != SignUp && FactorStage(p, done, derived, false, enrolled) && OfferedFactor(p, done, kind)
    requires FactorMoved(p, q, done + {kind}, enrolled', now)
    ensures FactorStage(q, done + {kind}, derived', false, enrolled')
  {
  }

  lemma FirstIsDone(p: Process, done: set<Kind>, kind: Kind)
    requires OfferedFactor(p, done, kind)
    ensures HasFirst(done + {kind})
  {
  }

  lemma AcceptAdvances(a: DB, v: DB, id: Id, cid: Id, now: Time)
    requires OpenStep(a, id, cid) && Bound(a, v, id)
    ensures cid in v.steps && Advanced(a, AcceptStep(v, id, cid, now), id, cid, now)
  {
  }

  // Once a first factor is done the process completes, unless an enrolled account still owes a second one.
  lemma AfterFactorDecides(cfg: Config, d: DB, now: Time, id: Id, cid: Id)
    requires id in d.procs && d.procs[id].status == Pending && d.procs[id].purpose != SignUp && d.procs[id].account.Some?
    requires HasFirst(DoneKinds(d.steps, id))
    ensures var r := AfterFactor(cfg, d, now, id, cid);
      && r.Ok?
      && r.value.db == if Enrolled(d.procs[id], d.totp) && !HasSecond(DoneKinds(d.steps, id)) then d
                       else Finish(cfg, d, id, d.procs[id].account.value, now)
  {
    hide DoneKinds, HasFirst, HasSecond;
  }

  lemma FinishMoves(cfg: Config, d: DB, id: Id, account: Id, now: Time)
    requires id in d.procs
    ensures var b := Finish(cfg, d, id, account, now);
      && b.procs == d.procs[id := b.procs[id]] && b.steps == d.steps && b.signups == d.signups && b.totp == d.totp
      && d.supply < b.supply
  {
  }

  lemma AfterFactorMakes(cfg: Config, a: DB, v: DB, id: Id, cid: Id, now: Time)
    requires OpenStep(a, id, cid) && Bound(a, v, id) && a.procs[id].invalid.None? && a.procs[id].purpose != SignUp
    requires OfferedFactor(a.procs[id], DoneKinds(a.steps, id), a.steps[cid].kind)
    ensures cid in v.steps
    ensures var r := AfterFactor(cfg, AcceptStep(v, id, cid, now), now, id, cid);
      && r.Ok? && Advanced(a, r.value.db, id, cid, now) && r.value.db.signups == a.signups
      && FactorMoved(a.procs[id], r.value.db.procs[id], DoneKinds(r.value.db.steps, id),
                     Enrolled(r.value.db.procs[id], r.value.db.totp), now)
  {
    var d := AcceptStep(v, id, cid, now);
    AcceptAdvances(a, v, id, cid, now);
    AdvancedDone(a, d, id, cid, now);
    FirstIsDone(a.procs[id], DoneKinds(a.steps, id), a.steps[cid].kind);
    assert d.procs == v.procs && d.signups == v.signups;
    hide AcceptStep, DoneKinds, OfferedFactor, HasFirst, HasSecond;
    AfterFactorDecides(cfg, d, now, id, cid);
    hide AfterFactor;
    FinishMoves(cfg, d, id, d.procs[id].account.value, now);
  }

  lemma FactorKeepsStage(id: Id, p: Process, q: Process, a: DB, b: DB, kind: Kind, now: Time)
    requires StageOk(id, p, a.steps, a.signups, a.totp) && p.purpose != SignUp
    requires OfferedFactor(p, DoneKinds(a.steps, id), kind) && DoneKinds(b.steps, id) == DoneKinds(a.steps, id) + {kind}
    requires FactorMoved(p, q, DoneKinds(b.steps, id), Enrolled(q, b.totp), now) && b.signups == a.signups
    ensures StageOk(id, q, b.steps, b.signups, b.totp) && SlotFree(DoneKinds(a.steps, id), kind)
  {
    var done := DoneKinds(a.steps, id);
    hide DoneKinds, HasSteps;
    FactorSlotFree(p, done, kind);
    FactorStageMoves(p, q, done, kind, Derived(p, a.steps, id), Derived(q, b.steps, id), Enrolled(p, a.totp), Enrolled(q, b.totp), now);
    hide OfferedFactor, FactorStage, SlotFree, FactorMoved;
  }

  lemma FactorKeepsCore(cfg: Config, a: DB, v: DB, id: Id, cid: Id, clock: Time, now: Time)
    requires Core(cfg, a, clock) && clock <= now && StepKeysOk(a.steps, a.supply)
    requires OpenStep(a, id, cid) && Bound(a, v, id) && a.procs[id].invalid.None? && a.procs[id].purpose != SignUp
    requires OfferedFactor(a.procs[id], DoneKinds(a.steps, id), a.steps[cid].kind)
    ensures cid in v.steps
    ensures var r := AfterFactor(cfg, AcceptStep(v, id, cid, now), now, id, cid);
      r.Ok? && Worked(cfg, a, r.value.db, id, cid, now)
  {
    AfterFactorMakes(cfg, a, v, id, cid, now);
    var b := AfterFactor(cfg, AcceptStep(v, id, cid, now), now, id, cid).value.db;
    hide AfterFactor, AcceptStep;
    AdvancedDone(a, b, id, cid, now);
    FlowOfCore(cfg, a, id, clock);
    hide OfferedFactor, Core, Bound, DoneKinds, StepOk, OneEachOf, StageOk;
    assert StageOk(id, a.procs[id], a.steps, a.signups, a.totp);
    hide FlowOk;
    FactorKeepsStage(id, a.procs[id], b.procs[id], a, b, a.steps[cid].kind, now);
    assert Moved(a.procs[id], b.procs[id], now);
    hide FactorMoved, SlotFree, Moved, OpenStep, Advanced;
    AdvancedKeepsCore(cfg, a, b, id, cid, clock, now);
  }

  // ---------- which proofs bind a process ----------

  lemma VerifyBinds(cfg: Config, db: DB, now: Time, id: Id, p: Process, cid: Id, step: Step, proof: Proof)
    requires id in db.procs && p == db.procs[id] && !SignUpKind(proof.Method())
    requires p.account.Some? ==> Sensitive(p.purpose) || !IsFirstFactor(proof.Method())
    requires Verify(cfg, db, now, id, p, cid, step, proof).Ok?
    ensures Bound(db, Verify(cfg, db, now, id, p, cid, step, proof).value.db, id)
  {
    hide TotpStep, PasswordFits, HasPasskey, AccountByLogin;
  }

  // ---------- registration ----------

  /** A stage of a registration was proved. */
  ghost predicate StageProved(a: DB, v: DB, id: Id, kind: Kind) {
    && id in a.procs && v.procs == a.procs && v.steps == a.steps && v.totp == a.totp && a.supply <= v.supply
    && (forall r | r != id :: r in v.signups <==> r in a.signups)
    && (id in v.signups <==> id in a.signups || kind == Registration)
  }

  /** What Next offered when the stage was accepted. */
  predicate OfferedStage(done: set<Kind>, registered: bool, kind: Kind) {
    || (kind == Registration && !registered)
    || (kind == Email && registered && Email !in done)
    || (kind == PasswordSetup && registered && Email in done && PasswordSetup !in done)
  }

  lemma NextStage(cfg: Config, db: DB, id: Id, p: Process, kind: Kind)
    requires p.purpose == SignUp && Next(cfg, db, id, p).Ok? && kind in Next(cfg, db, id, p).value
    ensures OfferedStage(DoneKinds(db.steps, id), id in db.signups, kind)
  {
    hide DoneKinds;
  }

  lemma RegistrationStage(cfg: Config, db: DB, id: Id, p: Process, raw: string)
    requires id in db.procs && VerifyRegistration(cfg, db, id, p, raw).Ok?
    ensures StageProved(db, VerifyRegistration(cfg, db, id, p, raw).value.db, id, Registration)
  {
  }

  lemma SetupStage(db: DB, id: Id, p: Process, password: Store.Password)
    requires id in db.procs && VerifySetup(db, id, p, password).Ok?
    ensures StageProved(db, VerifySetup(db, id, p, password).value.db, id, PasswordSetup)
  {
    if id in db.signups {
      var v := ChoosePassword(db, id, password);
      assert v.signups.Keys == db.signups.Keys;
      assert StageProved(db, v, id, PasswordSetup);
    }
    assert StageProved(db, db, id, PasswordSetup);
    hide ChoosePassword, StageProved;
  }

  lemma VerifyStages(cfg: Config, db: DB, now: Time, id: Id, p: Process, cid: Id, step: Step, proof: Proof)
    requires id in db.procs && SignUpKind(proof.Method()) && Verify(cfg, db, now, id, p, cid, step, proof).Ok?
    ensures StageProved(db, Verify(cfg, db, now, id, p, cid, step, proof).value.db, id, proof.Method())
  {
    hide VerifyRegistration, VerifySetup;
    match proof
    case RegistrationProof(raw) => RegistrationStage(cfg, db, id, p, raw);
    case SetupProof(password) => SetupStage(db, id, p, password);
    case EmailProof(code) =>
    case OtherProof(kind) =>
  }

  /** The row and registration after a stage. */
  predicate StageMoved(p: Process, q: Process, done: set<Kind>, registered: bool, enrolled: bool, now: Time) {
    && Moved(p, q, now)
    && (registered <==> Registration in done && q.status != Completed)
    && (q.status == Pending ==> PasswordSetup !in done)
    && (q.status == Completed ==> PasswordSetup in done && !enrolled)
  }

  lemma SignUpStageMoves(p: Process, q: Process, done: set<Kind>, kind: Kind, registered: bool, registered': bool,
                         enrolled: bool, enrolled': bool, now: Time)
    requires p.status == Pending && SignUpStage(p, done, registered, enrolled) && OfferedStage(done, registered, kind)
    requires StageMoved(p, q, done + {kind}, registered', enrolled', now)
    ensures SignUpStage(q, done + {kind}, registered', enrolled')
    ensures SlotFree(done, kind)
  {
  }

  lemma StageAdvances(a: DB, v: DB, id: Id, cid: Id, kind: Kind, now: Time)
    requires OpenStep(a, id, cid) && StageProved(a, v, id, kind)
    ensures cid in v.steps && Advanced(a, AcceptStep(v, id, cid, now), id, cid, now)
  {
    assert a.procs[id := a.procs[id]] == a.procs;
  }

  // A failed registration has no other pending step left to cancel.
  lemma FailMoves(a: DB, d: DB, id: Id, cid: Id, now: Time)
    requires Advanced(a, d, id, cid, now)
    ensures var b := FailRegistration(d, id); Advanced(a, b, id, cid, now) && b.signups.Keys == d.signups.Keys
  {
    assert FailRegistration(d, id).steps == d.steps;
  }

  lemma RegisterMoves(cfg: Config, a: DB, d: DB, id: Id, cid: Id, now: Time)
    requires Advanced(a, d, id, cid, now) && id in d.signups
    ensures var b := Enlist(cfg, d, id, now);
      && Advanced(a, b, id, cid, now) && b.signups == d.signups - {id} && b.steps == d.steps && b.totp == d.totp
      && b.procs[id].account == Some(d.supply)
  {
  }

  predicate StagesDone(done: set<Kind>) {
    Email in done && PasswordSetup in done
  }

  /** What follows a stage: the address is taken, or more is needed, or the account is made. */
  predicate StageOutcome(cfg: Config, d: DB, b: DB, id: Id, now: Time)
    requires id in d.procs
  {
    || (AddressTaken(d, id) && b == FailRegistration(d, id))
    || (id in d.signups && StagesDone(DoneKinds(d.steps, id)) && !AddressTaken(d, id) && b == Enlist(cfg, d, id, now))
    || (!(id in d.signups && StagesDone(DoneKinds(d.steps, id))) && b == d)
  }

  lemma AfterSignUpDecides(cfg: Config, d: DB, now: Time, id: Id, cid: Id, kind: Kind)
    requires id in d.procs && d.procs[id].purpose == SignUp && d.procs[id].status == Pending
    requires AfterSignUpStep(cfg, d, now, id, cid, kind).Ok?
    ensures StageOutcome(cfg, d, AfterSignUpStep(cfg, d, now, id, cid, kind).value.db, id, now)
  {
    hide EmailTaken, DoneKinds;
  }

  ghost predicate StageResult(a: DB, b: DB, id: Id, cid: Id, now: Time) {
    && Advanced(a, b, id, cid, now)
    && StageMoved(a.procs[id], b.procs[id], DoneKinds(b.steps, id), id in b.signups, Enrolled(b.procs[id], b.totp), now)
  }

  /** The state in which the accepted stage is recorded, before its consequences. */
  ghost predicate StageRecorded(a: DB, d: DB, id: Id, cid: Id, now: Time) {
    && Advanced(a, d, id, cid, now) && d.procs == a.procs && d.totp == a.totp
    && a.procs[id].purpose == SignUp && a.procs[id].invalid.None? && a.procs[id].account.None?
    && (id in d.signups <==> Registration in DoneKinds(d.steps, id))
    && (PasswordSetup in DoneKinds(d.steps, id) ==> id in d.signups && Email in DoneKinds(d.steps, id))
    && d.supply !in d.totp
  }

  lemma StageFails(a: DB, d: DB, id: Id, cid: Id, now: Time)
    requires StageRecorded(a, d, id, cid, now) && id in d.signups
    ensures StageResult(a, FailRegistration(d, id), id, cid, now)
  {
    FailMoves(a, d, id, cid, now);
    assert FailRegistration(d, id).steps == d.steps;
    hide DoneKinds, AcceptStep, CancelPending;
  }

  lemma StageEnlists(cfg: Config, a: DB, d: DB, id: Id, cid: Id, now: Time)
    requires StageRecorded(a, d, id, cid, now) && id in d.signups && StagesDone(DoneKinds(d.steps, id))
    ensures StageResult(a, Enlist(cfg, d, id, now), id, cid, now)
  {
    RegisterMoves(cfg, a, d, id, cid, now);
    var b := Enlist(cfg, d, id, now);
    assert Moved(a.procs[id], b.procs[id], now);
    hide DoneKinds, AcceptStep, CancelPending;
  }

  lemma StageResults(cfg: Config, a: DB, d: DB, id: Id, cid: Id, kind: Kind, now: Time)
    requires StageRecorded(a, d, id, cid, now) && AfterSignUpStep(cfg, d, now, id, cid, kind).Ok?
    ensures StageResult(a, AfterSignUpStep(cfg, d, now, id, cid, kind).value.db, id, cid, now)
  {
    AfterSignUpDecides(cfg, d, now, id, cid, kind);
    if id in d.signups {
      StageFails(a, d, id, cid, now);
      if StagesDone(DoneKinds(d.steps, id)) {
        StageEnlists(cfg, a, d, id, cid, now);
      }
    }
    hide AfterSignUpStep, AcceptStep, CancelPending, DoneKinds, Enlist, FailRegistration, EmailTaken;
  }

  lemma StageRecords(a: DB, v: DB, id: Id, cid: Id, kind: Kind, now: Time)
    requires OpenStep(a, id, cid) && StageProved(a, v, id, kind) && a.procs[id].purpose == SignUp && a.procs[id].invalid.None?
    requires a.procs[id].account.None?
    requires a.steps[cid].kind == kind && OfferedStage(DoneKinds(a.steps, id), id in a.signups, kind)
    requires SignUpStage(a.procs[id], DoneKinds(a.steps, id), id in a.signups, Enrolled(a.procs[id], a.totp))
    requires Numbered(a.totp, a.supply)
    ensures cid in v.steps && StageRecorded(a, AcceptStep(v, id, cid, now), id, cid, now)
  {
    var d := AcceptStep(v, id, cid, now);
    StageAdvances(a, v, id, cid, kind, now);
    AdvancedDone(a, d, id, cid, now);
    assert d.procs == v.procs && d.signups == v.signups && d.totp == v.totp && d.supply == v.supply;
    hide AcceptStep, DoneKinds, Advanced;
  }

  lemma SignUpKeepsCore(cfg: Config, a: DB, v: DB, id: Id, cid: Id, kind: Kind, clock: Time, now: Time)
    requires Core(cfg, a, clock) && clock <= now && StepKeysOk(a.steps, a.supply) && Numbered(a.totp, a.supply)
    requires OpenStep(a, id, cid) && StageProved(a, v, id, kind) && a.procs[id].purpose == SignUp && a.procs[id].invalid.None?
    requires a.steps[cid].kind == kind && OfferedStage(DoneKinds(a.steps, id), id in a.signups, kind)
    ensures cid in v.steps
    ensures var r := AfterSignUpStep(cfg, AcceptStep(v, id, cid, now), now, id, cid, kind);
      r.Ok? ==> Worked(cfg, a, r.value.db, id, cid, now)
  {
    FlowOfCore(cfg, a, id, clock);
    var done := DoneKinds(a.steps, id);
    assert SignUpStage(a.procs[id], done, id in a.signups, Enrolled(a.procs[id], a.totp));
    assert a.procs[id].account.None?;
    StageRecords(a, v, id, cid, kind, now);
    var d := AcceptStep(v, id, cid, now);
    hide Core, FlowOk, DoneKinds, AcceptStep, AfterSignUpStep, StageProved;
    if AfterSignUpStep(cfg, d, now, id, cid, kind).Ok? {
      var b := AfterSignUpStep(cfg, d, now, id, cid, kind).value.db;
      StageResults(cfg, a, d, id, cid, kind, now);
      AdvancedDone(a, b, id, cid, now);
      SignUpStageMoves(a.procs[id], b.procs[id], done, kind, id in a.signups, id in b.signups,
                       Enrolled(a.procs[id], a.totp), Enrolled(b.procs[id], b.totp), now);
      hide SignUpStage, OfferedStage, SlotFree, Advanced, StageRecorded;
      AdvancedKeepsCore(cfg, a, b, id, cid, clock, now);
    }
  }

  lemma CoreLater(cfg: Config, db: DB, clock: Time, now: Time)
    requires Core(cfg, db, clock) && clock <= now
    ensures Core(cfg, db, now)
  {
    hide OneEach, Budget, Stages;
  }
}
