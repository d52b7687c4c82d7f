/** Every live process can go on, and none goes on for long. */
module Progress {
  import opened Base
  import opened Store
  import opened Processes
  import opened Challenges
  import opened OAuth
  import opened Protocol
  import opened Invariant
  import opened Quietness
  import opened Flows
  import opened FlowActions
  import opened Acceptance
  import opened Attempts
  import opened Reachability
  import opened Evolution

  // ---------- progress ----------

  lemma NextAnswers(cfg: Config, db: DB, clock: Time, id: Id)
    requires Core(cfg, db, clock) && id in db.procs
    ensures Next(cfg, db, id, db.procs[id]).Ok?
    ensures db.procs[id].status == Pending && db.procs[id].invalid.None? ==> Next(cfg, db, id, db.procs[id]).value != []
    ensures db.procs[id].status != Pending ==> Next(cfg, db, id, db.procs[id]).value == []
  {
    hide DoneKinds, HasSteps, StepsOk, OneEach, Budget, StageOk, ProcOk, Next;
    assert StageOk(id, db.procs[id], db.steps, db.signups, db.totp) && ProcOk(cfg, db.procs[id], clock);
    StageAnswers(cfg, db, clock, id);
    hide *;
  }

  lemma StageAnswers(cfg: Config, db: DB, clock: Time, id: Id)
    requires id in db.procs && StageOk(id, db.procs[id], db.steps, db.signups, db.totp) && ProcOk(cfg, db.procs[id], clock)
    ensures Next(cfg, db, id, db.procs[id]).Ok?
    ensures db.procs[id].status == Pending && db.procs[id].invalid.None? ==> Next(cfg, db, id, db.procs[id]).value != []
    ensures db.procs[id].status != Pending ==> Next(cfg, db, id, db.procs[id]).value == []
  {
    hide DoneKinds, HasSteps;
  }

  /** The branch for a first factor without an account is never taken, and a live pending process always has a method to offer. */
  lemma LiveProcessesGoOn(cfg: Config, run: seq<Call>, now: Time, id: Id)
    requires Ordered(run, now) && id in After(cfg, run).procs
    ensures var db := After(cfg, run);
      && Next(cfg, db, id, db.procs[id]).Ok?
      && (db.procs[id].status == Pending && db.procs[id].invalid.None? ==> Next(cfg, db, id, db.procs[id]).value != [])
  {
    hide Transact;
    Reachable(cfg, run, now);
    NextAnswers(cfg, After(cfg, run), now, id);
    hide *;
  }

  // ---------- termination ----------

  /** Stages that stand between a pending process and its last one. */
  function Left(p: Process, done: set<Kind>): nat {
    if p.purpose == SignUp then (if Registration !in done then 2 else if Email !in done then 1 else 0)
    else if HasFirst(done) then 0 else 1
  }

  /** Attempts a process can still absorb: failures up to the limit, and the stages left. */
  function Potential(cfg: Config, db: DB, id: Id): nat {
    if id in db.procs && db.procs[id].status == Pending && db.procs[id].failures < cfg.maxAttempts
    then cfg.maxAttempts - db.procs[id].failures + Left(db.procs[id], DoneKinds(db.steps, id))
    else 0
  }

  /** The action judges a proof for the process. */
  predicate Judges(a: Action, id: Id) {
    (a.Attempt? && a.id == id) || (a.FinishProvider? && a.id == id) || (a.RejectProvider? && a.id == id)
  }

  /** Committed attempts on a process over a run. */
  function AttemptsOn(cfg: Config, db: DB, run: seq<Call>, id: Id): nat {
    if run == [] then 0
    else
      var n := |run| - 1;
      AttemptsOn(cfg, db, run[..n], id)
      + if Judges(run[n].action, id) && Transact(cfg, RunFrom(cfg, db, run[..n]), run[n].now, run[n].action).Ok? then 1 else 0
  }

  lemma CountSpendsPotential(cfg: Config, a: DB, id: Id, cid: Id)
    requires OpenStep(a, id, cid) && a.procs[id].failures < cfg.maxAttempts
    ensures Potential(cfg, CountFailure(cfg, a, id, cid), id) + 1 <= Potential(cfg, a, id)
  {
    CountKeepsDone(cfg, a, id, cid);
    hide DoneKinds;
  }

  /** The kind was among the methods offered. */
  predicate WasOffered(p: Process, done: set<Kind>, registered: bool, kind: Kind) {
    if p.purpose == SignUp then OfferedStage(done, registered, kind) else OfferedFactor(p, done, kind)
  }

  lemma AcceptSpendsPotential(cfg: Config, a: DB, b: DB, id: Id, cid: Id, clock: Time, now: Time)
    requires Core(cfg, a, clock) && Core(cfg, b, now)
    requires Advanced(a, b, id, cid, now) && Moved(a.procs[id], b.procs[id], now)
    requires WasOffered(a.procs[id], DoneKinds(a.steps, id), id in a.signups, a.steps[cid].kind)
    ensures Potential(cfg, b, id) + 1 <= Potential(cfg, a, id)
  {
    AdvancedDone(a, b, id, cid, now);
    assert StageOk(id, a.procs[id], a.steps, a.signups, a.totp) && ProcOk(cfg, a.procs[id], clock);
    assert StageOk(id, b.procs[id], b.steps, b.signups, b.totp);
    hide DoneKinds, HasSteps, Core, Advanced;
  }

  lemma WorkSpendsPotential(cfg: Config, a: DB, b: DB, id: Id, cid: Id, clock: Time, now: Time)
    requires Core(cfg, a, clock) && Worked(cfg, a, b, id, cid, now)
    requires WasOffered(a.procs[id], DoneKinds(a.steps, id), id in a.signups, a.steps[cid].kind)
    ensures Potential(cfg, b, id) + 1 <= Potential(cfg, a, id)
  {
    assert ProcOk(cfg, a.procs[id], clock);
    hide Core, CountFailure, Advanced, Potential, WasOffered, DoneKinds, StepKeysOk;
    if b == CountFailure(cfg, a, id, cid) {
      CountSpendsPotential(cfg, a, id, cid);
    } else {
      AcceptSpendsPotential(cfg, a, b, id, cid, clock, now);
    }
  }

  lemma AdmittedOffers(cfg: Config, db: DB, now: Time, id: Id, cid: Id, flow: Id)
    requires Admitted(cfg, db, now, id, cid, flow)
    ensures WasOffered(db.procs[id], DoneKinds(db.steps, id), id in db.signups, db.steps[cid].kind)
  {
    var p := db.procs[id];
    if p.purpose == SignUp {
      NextStage(cfg, db, id, p, db.steps[cid].kind);
    } else {
      NextFactor(cfg, db, id, p, db.steps[cid].kind);
    }
    hide Next, DoneKinds;
  }

  // An attempt spends potential of its process, and none of another.
  lemma JudgingSpendsPotential(cfg: Config, db: DB, clock: Time, call: Call, id: Id)
    requires FlowsOk(cfg, db, clock) && clock <= call.now && Numbered(db.totp, db.supply)
    requires Judges(call.action, id) && Transact(cfg, db, call.now, call.action).Ok?
    ensures Potential(cfg, Apply(cfg, db, call).db, id) + 1 <= Potential(cfg, db, id)
  {
    var now, b := call.now, Apply(cfg, db, call).db;
    hide Core, StepKeysOk, ProcKeysOk, Numbered, AttemptTx, FinishProviderTx, RejectProviderTx, Potential, Worked, WasOffered, Admitted;
    match call.action
    case Attempt(_, cid, flow, who, proof) =>
      AttemptAdmits(cfg, db, now, id, cid, flow, who, proof);
      AdmittedOffers(cfg, db, now, id, cid, flow);
      AttemptKeepsCore(cfg, db, clock, now, id, cid, flow, who, proof);
      WorkSpendsPotential(cfg, db, b, id, cid, clock, now);
    case FinishProvider(_, cid, flow, who, kind, subject) =>
      FinishAdmits(cfg, db, now, id, cid, flow, who, kind, subject);
      AdmittedOffers(cfg, db, now, id, cid, flow);
      FinishKeepsCore(cfg, db, clock, now, id, cid, flow, who, kind, subject);
      WorkSpendsPotential(cfg, db, b, id, cid, clock, now);
    case RejectProvider(_, cid, flow, who) =>
      RejectSpendsPotential(cfg, db, clock, now, id, cid, flow, who);
  }

  lemma RejectSpendsPotential(cfg: Config, db: DB, clock: Time, now: Time, id: Id, cid: Id, flow: Id, who: Principal)
    requires Core(cfg, db, clock) && RejectProviderTx(cfg, db, now, id, cid, flow, who).Ok?
    ensures Potential(cfg, RejectProviderTx(cfg, db, now, id, cid, flow, who).value.db, id) + 1 <= Potential(cfg, db, id)
  {
    hide CountFailure, FailureAnswer, PurposePrincipal, Potential, Stages, OneEach, StepsOk, Budget;
    assert id in db.procs && ProcOk(cfg, db.procs[id], clock);
    CountSpendsPotential(cfg, db, id, cid);
    hide Core;
  }

  lemma QuietKeepsPotential(cfg: Config, a: DB, b: DB, id: Id)
    requires Quiet(a, b)
    ensures Potential(cfg, b, id) <= Potential(cfg, a, id)
  {
    if id in b.procs {
      QuietKeepsDone(a.steps, b.steps, b.procs, id);
      assert Calmer(a.procs[id], b.procs[id]);
    }
    hide DoneKinds, QuietSteps;
  }

  lemma FocusKeepsPotential(cfg: Config, a: DB, b: DB, other: Id, id: Id)
    requires Focus(a, b, other) && id != other
    ensures Potential(cfg, b, id) == Potential(cfg, a, id)
  {
    if id in a.procs {
      FocusKeepsOthers(a, b, other, id);
    }
    hide DoneKinds;
  }

  lemma WorkedFocus(cfg: Config, a: DB, b: DB, id: Id, cid: Id, now: Time)
    requires Worked(cfg, a, b, id, cid, now) && StepKeysOk(a.steps, a.supply)
    ensures Focus(a, b, id)
  {
    if b == CountFailure(cfg, a, id, cid) {
      CountFocus(cfg, a, id, cid);
    } else {
      AdvancedFocus(a, b, id, cid, now);
    }
    hide Core, CountFailure, Advanced, Focus, StepKeysOk;
  }

  lemma StartFocuses(cfg: Config, db: DB, now: Time, name: string, who: Principal)
    requires StartTx(cfg, db, now, name, who).Ok? && StepKeysOk(db.steps, db.supply)
    ensures Focus(db, StartTx(cfg, db, now, name, who).value.db, db.supply)
  {
    StartMakes(cfg, db, now, name, who);
    hide StartTx, JustStarted;
  }

  lemma StepAddedKeepsPotential(cfg: Config, a: DB, b: DB, other: Id, kind: Kind, id: Id)
    requires StepAdded(a, b, other, kind) && StepKeysOk(a.steps, a.supply)
    ensures Potential(cfg, b, id) == Potential(cfg, a, id)
  {
    ChallengeFocus(a, b, other, kind);
    if id == other {
      ChallengeKeepsDone(a, b, id, kind);
    } else {
      FocusKeepsPotential(cfg, a, b, other, id);
    }
    hide DoneKinds, Focus, StepKeysOk, CancelPending;
  }

  lemma OtherJudgingKeepsPotential(cfg: Config, db: DB, clock: Time, call: Call, other: Id, id: Id)
    requires FlowsOk(cfg, db, clock) && clock <= call.now && Numbered(db.totp, db.supply)
    requires Judges(call.action, other) && id != other && Transact(cfg, db, call.now, call.action).Ok?
    ensures Potential(cfg, Apply(cfg, db, call).db, id) == Potential(cfg, db, id)
  {
    var now, b := call.now, Apply(cfg, db, call).db;
    hide Core, StepKeysOk, ProcKeysOk, Numbered, AttemptTx, FinishProviderTx, RejectProviderTx, Potential, Worked, Focus;
    match call.action
    case Attempt(_, cid, flow, who, proof) =>
      AttemptKeepsCore(cfg, db, clock, now, other, cid, flow, who, proof);
      WorkedFocus(cfg, db, b, other, cid, now);
      FocusKeepsPotential(cfg, db, b, other, id);
    case FinishProvider(_, cid, flow, who, kind, subject) =>
      FinishKeepsCore(cfg, db, clock, now, other, cid, flow, who, kind, subject);
      WorkedFocus(cfg, db, b, other, cid, now);
      FocusKeepsPotential(cfg, db, b, other, id);
    case RejectProvider(_, cid, flow, who) =>
      RejectKeepsCore(cfg, db, clock, now, other, cid, flow, who);
      WorkedFocus(cfg, db, b, other, cid, now);
      FocusKeepsPotential(cfg, db, b, other, id);
  }

  lemma FreshPotential(cfg: Config, db: DB, id: Id)
    ensures Potential(cfg, db, id) <= cfg.maxAttempts + 2
  {
    hide DoneKinds;
  }

  // Everything but an attempt on the process leaves it no more potential than it had.
  lemma OthersKeepPotential(cfg: Config, db: DB, clock: Time, call: Call, id: Id)
    requires FlowsOk(cfg, db, clock) && clock <= call.now && Numbered(db.totp, db.supply)
    requires !(Judges(call.action, id) && Transact(cfg, db, call.now, call.action).Ok?)
    ensures id != db.supply ==> Potential(cfg, Apply(cfg, db, call).db, id) <= Potential(cfg, db, id)
  {
    var now, b := call.now, Apply(cfg, db, call).db;
    hide Core, StepKeysOk, ProcKeysOk, Numbered, Potential, Focus, StepAdded, StartTx, CreateChallengeTx;
    if !Noisy(call.action) {
      InvRooted(cfg, db, clock);
      OthersAreQuiet(cfg, db, call);
      hide Transact, Quiet;
      QuietKeepsPotential(cfg, db, b, id);
    } else if Transact(cfg, db, now, call.action).Ok? {
      match call.action
      case Start(name, who) =>
        StartFocuses(cfg, db, now, name, who);
        if id != db.supply {
          FocusKeepsPotential(cfg, db, b, db.supply, id);
        }
      case CreateChallenge(other, flow, kind, who, options, code, libraryOk) =>
        CreateChallengeMakes(cfg, db, now, other, flow, kind, who, options, code, libraryOk);
        StepAddedKeepsPotential(cfg, db, b, other, kind, id);
      case Attempt(other, _, _, _, _) => OtherJudgingKeepsPotential(cfg, db, clock, call, other, id);
      case FinishProvider(other, _, _, _, _, _) => OtherJudgingKeepsPotential(cfg, db, clock, call, other, id);
      case RejectProvider(other, _, _, _) => OtherJudgingKeepsPotential(cfg, db, clock, call, other, id);
    } else {
      hide Transact;
    }
  }

  /** The potential pays for every attempt, whoever else is at work. */
  lemma {:induction false} AttemptsArePaid(cfg: Config, run: seq<Call>, now: Time, id: Id)
    requires Ordered(run, now)
    ensures AttemptsOn(cfg, EMPTY, run, id) + Potential(cfg, After(cfg, run), id) <= cfg.maxAttempts + 2
    ensures id >= After(cfg, run).supply ==> AttemptsOn(cfg, EMPTY, run, id) == 0
  {
    hide Transact;
    if run == [] {
      hide DoneKinds;
    } else {
      var n := |run| - 1;
      OrderedPrefix(run, now, n);
      AttemptsArePaid(cfg, run[..n], run[n].now, id);
      Reachable(cfg, run[..n], run[n].now);
      hide Apply, Transact, Potential, Core;
      AttemptPaid(cfg, After(cfg, run[..n]), run[n], id, AttemptsOn(cfg, EMPTY, run[..n], id));
    }
  }

  lemma AttemptPaid(cfg: Config, db: DB, call: Call, id: Id, before: nat)
    requires Inv(cfg, db, call.now) && before + Potential(cfg, db, id) <= cfg.maxAttempts + 2 && (id >= db.supply ==> before == 0)
    ensures var b := Apply(cfg, db, call).db;
      var paid := if Judges(call.action, id) && Transact(cfg, db, call.now, call.action).Ok? then 1 else 0;
      before + paid + Potential(cfg, b, id) <= cfg.maxAttempts + 2 && (id >= b.supply ==> before + paid == 0)
  {
    hide Apply, Transact, Core;
    EveryActionEvolves(cfg, db, call.now, call);
    var b := Apply(cfg, db, call).db;
    assert db.supply <= b.supply && Numbered(db.totp, db.supply) && FlowsOk(cfg, db, call.now);
    NoPotentialUnborn(cfg, db, id);
    hide Evolved, Keys, FlowsOk, Numbered, Potential;
    if Judges(call.action, id) && Transact(cfg, db, call.now, call.action).Ok? {
      JudgingSpendsPotential(cfg, db, call.now, call, id);
    } else {
      OthersKeepPotential(cfg, db, call.now, call, id);
      FreshPotential(cfg, b, id);
    }
  }

  lemma NoPotentialUnborn(cfg: Config, db: DB, id: Id)
    requires ProcKeysOk(db.procs, db.supply)
    ensures id >= db.supply ==> Potential(cfg, db, id) == 0
  {
  }

  /** Every process reaches its end after at most the attempt limit and two committed attempts, under every interleaving. */
  lemma AttemptsAreBounded(cfg: Config, run: seq<Call>, now: Time, id: Id)
    requires Ordered(run, now)
    ensures AttemptsOn(cfg, EMPTY, run, id) <= cfg.maxAttempts + 2
    ensures AttemptsOn(cfg, EMPTY, run, id) == cfg.maxAttempts + 2 && id in After(cfg, run).procs
      ==> After(cfg, run).procs[id].status != Pending
  {
    hide Transact;
    AttemptsArePaid(cfg, run, now, id);
    Reachable(cfg, run, now);
    assert id in After(cfg, run).procs ==> ProcOk(cfg, After(cfg, run).procs[id], now);
    hide After, AttemptsOn, DoneKinds;
  }
}
