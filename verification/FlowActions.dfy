/** Starting a process, creating a step and counting a wrong proof. */
module FlowActions {
  import opened Base
  import opened Store
  import opened Processes
  import opened Challenges
  import opened Invariant
  import opened Flows

  // ---------- starting ----------

  /** p is a process without steps that Start may have made. */
  predicate JustStarted(cfg: Config, p: Process, now: Time) {
    && p.failures == 0 && p.invalid.None?
    && (p.session.Some? <==> Sensitive(p.purpose)) && (p.session.Some? <==> p.account.Some?)
    && (p.status == Pending || (p.status == Completed && p.session.Some?))
    && (if p.status == Completed then p.completed == Some(now) else p.completed.None? && p.grant.None?)
  }

  /** Nothing hangs on an id that was not drawn yet. */
  ghost predicate Unborn(steps: map<Id, Step>, signups: map<Id, Signup>, id: Id) {
    id !in signups && forall s | s in steps :: steps[s].process != id
  }

  lemma NextIdIsUnborn(cfg: Config, a: DB, clock: Time)
    requires Core(cfg, a, clock) && ProcKeysOk(a.procs, a.supply)
    ensures Unborn(a.steps, a.signups, a.supply)
  {
    hide ProcOk, StepOk, OneEach, Budget, StageOk;
  }

  lemma StartFlow(cfg: Config, db: DB, id: Id, clock: Time, now: Time)
    requires id in db.procs && JustStarted(cfg, db.procs[id], now)
    requires Unborn(db.steps, db.signups, id)
    ensures FlowOk(cfg, db, id, now)
  {
    NoFailures(db.steps, id, db.supply);
    assert DoneKinds(db.steps, id) == {};
    assert !HasSteps(db.steps, id);
    hide FailureSum, DoneKinds, HasSteps;
  }

  lemma StartKeepsCore(cfg: Config, a: DB, b: DB, clock: Time, now: Time)
    requires Core(cfg, a, clock) && clock <= now && ProcKeysOk(a.procs, a.supply) && StepKeysOk(a.steps, a.supply)
    requires a.supply in b.procs && b == a.(procs := a.procs[a.supply := b.procs[a.supply]], supply := b.supply) && a.supply <= b.supply
    requires JustStarted(cfg, b.procs[a.supply], now)
    ensures Core(cfg, b, now)
  {
    hide Core, FlowOk, ProcKeysOk, JustStarted, Unborn;
    NextIdIsUnborn(cfg, a, clock);
    StartFlow(cfg, b, a.supply, clock, now);
    FocusKeepsCore(cfg, a, b, a.supply, clock, now);
  }

  lemma {:induction false} NoFailures(steps: map<Id, Step>, id: Id, n: nat)
    requires forall s | s in steps :: steps[s].process != id
    ensures FailureSum(steps, id, n) == 0
  {
    if n > 0 {
      NoFailures(steps, id, n - 1);
    }
  }

  lemma StartMakes(cfg: Config, db: DB, now: Time, name: string, who: Principal)
    requires StartTx(cfg, db, now, name, who).Ok?
    ensures var d := StartTx(cfg, db, now, name, who).value.db;
      && db.supply in d.procs && db.supply <= d.supply
      && d == db.(procs := db.procs[db.supply := d.procs[db.supply]], supply := d.supply)
      && JustStarted(cfg, d.procs[db.supply], now)
  {
    hide PurposePrincipal, Next, Reusable;
    var d := StartTx(cfg, db, now, name, who).value.db;
    var purpose := ParsePurpose(name).value;
    hide ParsePurpose;
    var e := Opened(cfg, db, now, purpose, who);
    assert e == db.(procs := db.procs[db.supply := e.procs[db.supply]], supply := db.supply + 2);
    assert Sensitive(purpose) ==> who.Bearer?;
    var f := Finish(cfg, e, db.supply, if who.Bearer? then who.account else 0, now);
    assert d == e || (Sensitive(purpose) && d == f);
    hide StartTx;
    assert f.procs == db.procs[db.supply := f.procs[db.supply]];
    assert f == db.(procs := f.procs, supply := f.supply);
  }

  // ---------- creating a step ----------

  predicate NewStep(s: Step, id: Id, kind: Kind) {
    s.process == id && s.kind == kind && s.status == Pending && s.failures == 0 && s.completed.None?
  }

  /** A new pending step replaced the pending steps of its kind. */
  ghost predicate StepAdded(a: DB, b: DB, id: Id, kind: Kind) {
    && id in a.procs && a.procs[id].status == Pending
    && b.procs == a.procs && b.signups == a.signups && b.totp == a.totp
    && a.supply < b.supply && a.supply in b.steps
    && b.steps == CancelPending(a.steps, id, Some(kind), None)[a.supply := b.steps[a.supply]]
    && NewStep(b.steps[a.supply], id, kind)
    && (a.procs[id].purpose == SignUp <==> SignUpKind(kind))
  }

  lemma NextKinds(cfg: Config, db: DB, id: Id, p: Process, kind: Kind)
    requires Next(cfg, db, id, p).Ok? && kind in Next(cfg, db, id, p).value
    ensures p.status == Pending && (p.purpose == SignUp <==> SignUpKind(kind))
  {
    hide DoneKinds;
  }

  lemma CreateChallengeMakes(cfg: Config, db: DB, now: Time, id: Id, flow: Id, kind: Kind, who: Principal,
                             options: OAuthOptions, code: Id, libraryOk: bool)
    requires CreateChallengeTx(cfg, db, now, id, flow, kind, who, options, code, libraryOk).Ok?
    ensures StepAdded(db, CreateChallengeTx(cfg, db, now, id, flow, kind, who, options, code, libraryOk).value.db, id, kind)
  {
    hide PurposePrincipal, Next, CancelPending, Earlier, CreateOAuth;
    var p := db.procs[id];
    NextKinds(cfg, db, id, p, kind);
    var step := Step(id, kind, Pending, 0, Earlier(now + cfg.challengeTTL, p.expires), None, NoDetail);
    var d := db.(steps := CancelPending(db.steps, id, Some(kind), None)[db.supply := step], supply := db.supply + 1);
    if IsProvider(kind) {
      CreateOAuthMakes(cfg, d, db.supply, step, flow, options, libraryOk);
    }
  }

  lemma CreateOAuthMakes(cfg: Config, d: DB, cid: Id, step: Step, flow: Id, o: OAuthOptions, libraryOk: bool)
    requires IsProvider(step.kind) && cid in d.steps && d.steps[cid] == step && CreateOAuth(cfg, d, cid, step, flow, o, libraryOk).Ok?
    ensures var e := CreateOAuth(cfg, d, cid, step, flow, o, libraryOk).value.db;
      && cid in e.steps && e.steps == d.steps[cid := step.(detail := e.steps[cid].detail)]
      && e.procs == d.procs && e.signups == d.signups && e.totp == d.totp && d.supply <= e.supply
  {
    hide ProviderOf;
  }

  // Cancelling and adding pending steps leaves what is completed and what has failed.
  lemma ChallengeKeepsDone(a: DB, b: DB, id: Id, kind: Kind)
    requires StepAdded(a, b, id, kind) && a.supply !in a.steps
    ensures DoneKinds(b.steps, id) == DoneKinds(a.steps, id)
    ensures FailureSum(b.steps, id, b.supply) == FailureSum(a.steps, id, b.supply)
  {
    assert forall s | s in a.steps :: s in b.steps && (DoneStep(b.steps[s], id) <==> DoneStep(a.steps[s], id)) && b.steps[s].kind == a.steps[s].kind;
    SumAgrees(a.steps, b.steps, id, b.supply);
  }

  lemma ChallengeSteps(cfg: Config, a: DB, b: DB, id: Id, kind: Kind, clock: Time, now: Time)
    requires id in a.procs && FlowOk(cfg, a, id, clock) && clock <= now && StepAdded(a, b, id, kind)
    ensures forall s | s in b.steps && b.steps[s].process == id :: StepOk(b.steps[s], b.procs[id], now)
  {
    hide StageOk, OneEachOf, FailureSum;
  }

  lemma ChallengeOneEach(cfg: Config, a: DB, b: DB, id: Id, kind: Kind)
    requires OneEachOf(a.steps, id) && StepAdded(a, b, id, kind)
    ensures OneEachOf(b.steps, id)
  {
  }

  lemma ChallengeFlow(cfg: Config, a: DB, b: DB, id: Id, kind: Kind, clock: Time, now: Time)
    requires id in a.procs && FlowOk(cfg, a, id, clock) && clock <= now && StepKeysOk(a.steps, a.supply)
    requires StepAdded(a, b, id, kind)
    ensures FlowOk(cfg, b, id, now)
  {
    ChallengeKeepsDone(a, b, id, kind);
    SumExtends(a.steps, id, a.supply, b.supply);
    ChallengeSteps(cfg, a, b, id, kind, clock, now);
    ChallengeOneEach(cfg, a, b, id, kind);
    hide DoneKinds, StepOk, OneEachOf, FailureSum, HasSteps;
  }

  lemma ChallengeFocus(a: DB, b: DB, id: Id, kind: Kind)
    requires StepKeysOk(a.steps, a.supply) && StepAdded(a, b, id, kind)
    ensures Focus(a, b, id) && StepKeysOk(b.steps, b.supply)
  {
    assert a.procs[id := a.procs[id]] == a.procs;
  }

  lemma ChallengeKeepsCore(cfg: Config, a: DB, b: DB, id: Id, kind: Kind, clock: Time, now: Time)
    requires Core(cfg, a, clock) && clock <= now && StepKeysOk(a.steps, a.supply) && StepAdded(a, b, id, kind)
    ensures Core(cfg, b, now) && StepKeysOk(b.steps, b.supply)
  {
    FlowOfCore(cfg, a, id, clock);
    ChallengeFlow(cfg, a, b, id, kind, clock, now);
    ChallengeFocus(a, b, id, kind);
    hide *;
    FocusKeepsCore(cfg, a, b, id, clock, now);
  }

  // ---------- a wrong proof ----------

  predicate OpenStep(db: DB, id: Id, cid: Id) {
    && id in db.procs && db.procs[id].status == Pending
    && cid in db.steps && PendingStep(db.steps[cid], id)
  }

  lemma {:induction false} SumBounds(steps: map<Id, Step>, id: Id, s: Id, n: nat)
    requires s < n
    ensures FailuresOf(steps, id, s) <= FailureSum(steps, id, n)
  {
    if s < n - 1 {
      SumBounds(steps, id, s, n - 1);
    }
  }

  // The process pays for the failure of its step, and fails no later than it.
  lemma CountSums(cfg: Config, a: DB, id: Id, cid: Id)
    requires OpenStep(a, id, cid) && StepKeysOk(a.steps, a.supply) && a.procs[id].failures == FailureSum(a.steps, id, a.supply)
    ensures var b := CountFailure(cfg, a, id, cid);
      && b.procs[id].failures == FailureSum(b.steps, id, b.supply)
      && b.steps[cid].failures <= b.procs[id].failures
  {
    var b := CountFailure(cfg, a, id, cid);
    SumCounts(a.steps, b.steps, id, cid, a.supply);
    SumBounds(b.steps, id, cid, a.supply);
  }

  lemma CountKeepsDone(cfg: Config, a: DB, id: Id, cid: Id)
    requires OpenStep(a, id, cid)
    ensures DoneKinds(CountFailure(cfg, a, id, cid).steps, id) == DoneKinds(a.steps, id)
  {
    var b := CountFailure(cfg, a, id, cid);
    assert forall s | s in a.steps :: s in b.steps && (DoneStep(b.steps[s], id) <==> DoneStep(a.steps[s], id)) && b.steps[s].kind == a.steps[s].kind;
  }

  lemma CountSteps(cfg: Config, a: DB, id: Id, cid: Id, clock: Time, now: Time)
    requires OpenStep(a, id, cid) && FlowOk(cfg, a, id, clock) && clock <= now
    requires var b := CountFailure(cfg, a, id, cid); b.steps[cid].failures <= b.procs[id].failures
    ensures var b := CountFailure(cfg, a, id, cid);
      && (forall s | s in b.steps && b.steps[s].process == id :: StepOk(b.steps[s], b.procs[id], now))
      && OneEachOf(b.steps, id)
  {
    hide StageOk, FailureSum;
    var b := CountFailure(cfg, a, id, cid);
    assert b.steps[cid].status == Failed ==> b.procs[id].status == Failed;
  }

  lemma CountFlow(cfg: Config, a: DB, id: Id, cid: Id, clock: Time, now: Time)
    requires OpenStep(a, id, cid) && FlowOk(cfg, a, id, clock) && clock <= now && StepKeysOk(a.steps, a.supply)
    ensures FlowOk(cfg, CountFailure(cfg, a, id, cid), id, now)
  {
    CountSums(cfg, a, id, cid);
    CountKeepsDone(cfg, a, id, cid);
    CountSteps(cfg, a, id, cid, clock, now);
    hide DoneKinds, StepOk, OneEachOf, FailureSum, HasSteps;
  }

  lemma CountFocus(cfg: Config, a: DB, id: Id, cid: Id)
    requires OpenStep(a, id, cid) && StepKeysOk(a.steps, a.supply)
    ensures var b := CountFailure(cfg, a, id, cid); Focus(a, b, id) && StepKeysOk(b.steps, b.supply) && b.supply == a.supply
  {
  }

  lemma CountKeepsCore(cfg: Config, a: DB, id: Id, cid: Id, clock: Time, now: Time)
    requires Core(cfg, a, clock) && clock <= now && StepKeysOk(a.steps, a.supply) && OpenStep(a, id, cid)
    ensures var b := CountFailure(cfg, a, id, cid); Core(cfg, b, now) && StepKeysOk(b.steps, b.supply)
  {
    FlowOfCore(cfg, a, id, clock);
    CountFlow(cfg, a, id, cid, clock, now);
    CountFocus(cfg, a, id, cid);
    var b := CountFailure(cfg, a, id, cid);
    hide *;
    FocusKeepsCore(cfg, a, b, id, clock, now);
  }
}
