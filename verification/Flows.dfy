/** Transactions that work on one process: starting it, creating a step and judging a proof keep the core of the invariant. */
module Flows {
  import opened Base
  import opened Store
  import opened Processes
  import opened Invariant

  /** Only the process id, its steps and its registration differ; nobody's enrolment does. */
  ghost predicate Focus(a: DB, b: DB, id: Id) {
    && id in b.procs && b.procs == a.procs[id := b.procs[id]]
    && (forall s | s in a.steps && a.steps[s].process != id :: s in b.steps && b.steps[s] == a.steps[s])
    && (forall s | s in b.steps && b.steps[s].process != id :: s in a.steps && b.steps[s] == a.steps[s])
    && (forall r | r != id :: r in b.signups <==> r in a.signups)
    && b.totp.Keys == a.totp.Keys
    && a.supply <= b.supply && StepKeysOk(a.steps, a.supply)
  }

  /** What the core of the invariant says of one process. */
  ghost predicate FlowOk(cfg: Config, db: DB, id: Id, clock: Time)
    requires id in db.procs
  {
    && ProcOk(cfg, db.procs[id], clock)
    && (forall s | s in db.steps && db.steps[s].process == id :: StepOk(db.steps[s], db.procs[id], clock))
    && OneEachOf(db.steps, id)
    && db.procs[id].failures == FailureSum(db.steps, id, db.supply)
    && StageOk(id, db.procs[id], db.steps, db.signups, db.totp)
  }

  ghost predicate OneEachOf(steps: map<Id, Step>, id: Id) {
    forall s, t | s in steps && t in steps && steps[s].process == id
      && (BothPending(steps[s], steps[t]) || BothDone(steps[s], steps[t])) :: s == t
  }

  lemma FlowOfCore(cfg: Config, db: DB, id: Id, clock: Time)
    requires Core(cfg, db, clock) && id in db.procs
    ensures FlowOk(cfg, db, id, clock)
  {
    assert OneEachOf(db.steps, id);
    assert db.procs[id].failures == FailureSum(db.steps, id, db.supply);
  }

  lemma FocusKeepsOthers(a: DB, b: DB, id: Id, p: Id)
    requires Focus(a, b, id) && p != id && p in a.procs
    ensures DoneKinds(b.steps, p) == DoneKinds(a.steps, p)
    ensures HasSteps(b.steps, p) <==> HasSteps(a.steps, p)
  {
    assert forall s | s in a.steps && a.steps[s].process == p :: s in b.steps && b.steps[s] == a.steps[s];
    assert forall s | s in b.steps && b.steps[s].process == p :: s in a.steps && b.steps[s] == a.steps[s];
  }

  lemma FocusKeepsStages(cfg: Config, a: DB, b: DB, id: Id, now: Time)
    requires Stages(a.procs, a.steps, a.signups, a.totp) && Focus(a, b, id) && FlowOk(cfg, b, id, now)
    ensures Stages(b.procs, b.steps, b.signups, b.totp)
  {
    forall p | p in b.procs
      ensures StageOk(p, b.procs[p], b.steps, b.signups, b.totp)
    {
      if p != id {
        FocusKeepsOthers(a, b, id, p);
        StageAgrees(p, a.procs[p], a, b);
      }
    }
    hide *;
  }

  lemma StageAgrees(id: Id, p: Process, a: DB, b: DB)
    requires StageOk(id, p, a.steps, a.signups, a.totp)
    requires DoneKinds(b.steps, id) == DoneKinds(a.steps, id) && (HasSteps(b.steps, id) <==> HasSteps(a.steps, id))
    requires (id in b.signups <==> id in a.signups) && b.totp.Keys == a.totp.Keys
    ensures StageOk(id, p, b.steps, b.signups, b.totp)
  {
    hide DoneKinds, HasSteps;
  }

  lemma FocusKeepsBudget(cfg: Config, a: DB, b: DB, id: Id, now: Time)
    requires Budget(a.procs, a.steps, a.supply) && Focus(a, b, id) && FlowOk(cfg, b, id, now) && StepKeysOk(b.steps, b.supply)
    ensures Budget(b.procs, b.steps, b.supply)
  {
    forall p | p in b.procs
      ensures b.procs[p].failures == FailureSum(b.steps, p, b.supply)
    {
      if p != id {
        SumAgrees(a.steps, b.steps, p, b.supply);
        SumExtends(a.steps, p, a.supply, b.supply);
      }
    }
  }

  lemma FocusKeepsProcs(cfg: Config, a: DB, b: DB, id: Id, clock: Time, now: Time)
    requires ProcsOk(cfg, a.procs, clock) && clock <= now && Focus(a, b, id) && FlowOk(cfg, b, id, now)
    ensures ProcsOk(cfg, b.procs, now)
  {
    hide StageOk, FailureSum, OneEachOf, StepKeysOk;
  }

  lemma FocusKeepsSteps(cfg: Config, a: DB, b: DB, id: Id, clock: Time, now: Time)
    requires StepsOk(a.procs, a.steps, clock) && clock <= now && Focus(a, b, id) && FlowOk(cfg, b, id, now)
    ensures StepsOk(b.procs, b.steps, now)
  {
    hide StageOk, FailureSum, OneEachOf, StepKeysOk;
    forall s | s in b.steps
      ensures b.steps[s].process in b.procs && StepOk(b.steps[s], b.procs[b.steps[s].process], now)
    {
      if b.steps[s].process != id {
        assert StepOk(a.steps[s], a.procs[a.steps[s].process], clock);
      }
    }
  }

  lemma FocusKeepsOneEach(cfg: Config, a: DB, b: DB, id: Id, now: Time)
    requires OneEach(a.steps) && Focus(a, b, id) && FlowOk(cfg, b, id, now)
    ensures OneEach(b.steps)
  {
    hide StageOk, FailureSum, StepKeysOk, ProcOk, StepOk;
    assert OneEachOf(b.steps, id);
  }

  lemma FocusKeepsCore(cfg: Config, a: DB, b: DB, id: Id, clock: Time, now: Time)
    requires Core(cfg, a, clock) && clock <= now && Focus(a, b, id) && FlowOk(cfg, b, id, now) && StepKeysOk(b.steps, b.supply)
    ensures Core(cfg, b, now)
  {
    hide FlowOk, Focus, ProcsOk, StepsOk, OneEach, Budget, Stages;
    FocusKeepsProcs(cfg, a, b, id, clock, now);
    FocusKeepsSteps(cfg, a, b, id, clock, now);
    FocusKeepsOneEach(cfg, a, b, id, now);
    FocusKeepsBudget(cfg, a, b, id, now);
    FocusKeepsStages(cfg, a, b, id, now);
  }
}
