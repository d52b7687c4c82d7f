/** Transactions that leave processes to themselves: these only lose standing, or go with all their steps. */
module Quietness {
  import opened Base
  import opened Store
  import opened Processes
  import opened Invariant

  /** The same process, except that it may have lost its standing or its grant. */
  predicate Calmer(p: Process, q: Process) {
    && q == p.(invalid := q.invalid, grant := q.grant)
    && (q.grant.Some? ==> q.grant == p.grant && q.invalid == p.invalid)
    && (p.invalid.Some? ==> q.invalid == p.invalid)
    && (q.invalid.Some? ==> p.account.Some? || p.invalid.Some?)
  }

  ghost predicate QuietProcs(a: map<Id, Process>, b: map<Id, Process>) {
    forall p | p in b :: p in a && Calmer(a[p], b[p])
  }

  ghost predicate QuietSteps(a: map<Id, Step>, b: map<Id, Step>, procs: map<Id, Process>) {
    && (forall s | s in b :: s in a && b[s] == a[s] && a[s].process in procs)
    && (forall s | s in a && a[s].process in procs :: s in b)
  }

  ghost predicate QuietSignups(a: map<Id, Signup>, b: map<Id, Signup>, procs: map<Id, Process>) {
    && (forall r | r in b :: r in a && b[r] == a[r] && r in procs)
    && (forall r | r in a && r in procs :: r in b)
  }

  ghost predicate QuietTotp(a: map<Id, TotpFactor>, b: map<Id, TotpFactor>, procs: map<Id, Process>) {
    forall p | p in procs && procs[p].invalid.None? :: Enrolled(procs[p], a) <==> Enrolled(procs[p], b)
  }

  ghost predicate Quiet(a: DB, b: DB) {
    && QuietProcs(a.procs, b.procs)
    && QuietSteps(a.steps, b.steps, b.procs)
    && QuietSignups(a.signups, b.signups, b.procs)
    && QuietTotp(a.totp, b.totp, b.procs)
    && a.supply <= b.supply
  }

  // ---------- a quiet transaction keeps the core of the invariant ----------

  lemma QuietKeepsProcs(cfg: Config, a: DB, b: DB, clock: Time, now: Time)
    requires Quiet(a, b) && clock <= now && ProcsOk(cfg, a.procs, clock)
    ensures ProcsOk(cfg, b.procs, now)
  {
    hide QuietSteps, QuietSignups, QuietTotp;
    forall p | p in b.procs
      ensures ProcOk(cfg, b.procs[p], now)
    {
      assert Calmer(a.procs[p], b.procs[p]);
    }
  }

  lemma QuietKeepsStepsOk(a: DB, b: DB, clock: Time, now: Time)
    requires Quiet(a, b) && clock <= now && StepsOk(a.procs, a.steps, clock)
    ensures StepsOk(b.procs, b.steps, now)
  {
    hide QuietSignups, QuietTotp;
    forall s | s in b.steps
      ensures b.steps[s].process in b.procs && StepOk(b.steps[s], b.procs[b.steps[s].process], now)
    {
      assert Calmer(a.procs[a.steps[s].process], b.procs[a.steps[s].process]);
    }
  }

  lemma QuietKeepsBudget(a: DB, b: DB)
    requires Quiet(a, b) && Budget(a.procs, a.steps, a.supply) && StepKeysOk(a.steps, a.supply)
    ensures Budget(b.procs, b.steps, b.supply)
  {
    hide QuietSignups, QuietTotp;
    forall p | p in b.procs
      ensures b.procs[p].failures == FailureSum(b.steps, p, b.supply)
    {
      assert Calmer(a.procs[p], b.procs[p]);
      SumAgrees(a.steps, b.steps, p, a.supply);
      SumExtends(b.steps, p, a.supply, b.supply);
    }
  }

  lemma QuietKeepsDone(a: map<Id, Step>, b: map<Id, Step>, procs: map<Id, Process>, p: Id)
    requires QuietSteps(a, b, procs) && p in procs
    ensures DoneKinds(b, p) == DoneKinds(a, p)
    ensures HasSteps(b, p) <==> HasSteps(a, p)
  {
    assert forall s | s in a && a[s].process == p :: s in b && b[s] == a[s];
    assert forall s | s in b && b[s].process == p :: s in a && b[s] == a[s];
  }

  lemma QuietKeepsStages(a: DB, b: DB)
    requires Quiet(a, b) && Stages(a.procs, a.steps, a.signups, a.totp)
    ensures Stages(b.procs, b.steps, b.signups, b.totp)
  {
    forall p | p in b.procs
      ensures StageOk(p, b.procs[p], b.steps, b.signups, b.totp)
    {
      QuietKeepsDone(a.steps, b.steps, b.procs, p);
      QuietKeepsStage(p, a.procs[p], b.procs[p], a, b);
    }
  }

  lemma QuietKeepsStage(id: Id, p: Process, q: Process, a: DB, b: DB)
    requires StageOk(id, p, a.steps, a.signups, a.totp) && Calmer(p, q)
    requires DoneKinds(b.steps, id) == DoneKinds(a.steps, id) && (HasSteps(b.steps, id) <==> HasSteps(a.steps, id))
    requires id in b.signups <==> id in a.signups
    requires q.invalid.None? ==> (Enrolled(q, a.totp) <==> Enrolled(q, b.totp))
    ensures StageOk(id, q, b.steps, b.signups, b.totp)
  {
    hide DoneKinds, HasSteps;
  }

  lemma QuietKeepsCore(cfg: Config, a: DB, b: DB, clock: Time, now: Time)
    requires Core(cfg, a, clock) && Quiet(a, b) && clock <= now && StepKeysOk(a.steps, a.supply)
    ensures Core(cfg, b, now)
  {
    QuietKeepsProcs(cfg, a, b, clock, now);
    QuietKeepsStepsOk(a, b, clock, now);
    QuietKeepsBudget(a, b);
    QuietKeepsStages(a, b);
    assert OneEach(b.steps) by {
      hide ProcsOk, StepsOk, Budget, Stages;
      assert QuietSteps(a.steps, b.steps, b.procs);
    }
    hide *;
  }
}
