/** How processes and steps may change over any run: what is settled stays settled, and nothing is reused. */
module Evolution {
  import opened Base
  import opened Store
  import opened Processes
  import opened Challenges
  import opened OAuth
  import opened Protocol
  import opened Invariant
  import opened Quietness
  import opened FlowActions
  import opened Acceptance
  import opened Attempts
  import opened KeyActions
  import opened Reachability

  /** The same process later: its binding, its verdict and its invalidation are never taken back. */
  predicate RowEvolves(p: Process, q: Process) {
    && q.purpose == p.purpose && q.session == p.session && q.flow == p.flow && q.expires == p.expires
    && (p.account.Some? ==> q.account == p.account)
    && (p.status != Pending || p.invalid.Some? ==> q.status == p.status && q.completed == p.completed && q.failures == p.failures && q.account == p.account)
    && (p.invalid.Some? ==> q.invalid == p.invalid)
    && p.failures <= q.failures
  }

  /** A grant is issued when the process completes, and never again. */
  predicate GrantEvolves(p: Process, q: Process, supply: Id) {
    q.grant.Some? ==> q.grant == p.grant || (p.status == Pending && q.grant.value.hash.value >= supply)
  }

  /** The same step later: only a pending step changes, and never its process, kind, expiry or secret. */
  predicate StepEvolves(s: Step, t: Step) {
    && t == s.(status := t.status, failures := t.failures, completed := t.completed)
    && (s.status != Pending ==> t == s)
  }

  ghost predicate ProcsEvolve(a: DB, b: DB) {
    && a.supply <= b.supply
    && (forall p | p in b.procs && p in a.procs :: RowEvolves(a.procs[p], b.procs[p]) && GrantEvolves(a.procs[p], b.procs[p], a.supply))
    && (forall p | p in b.procs && p !in a.procs :: p >= a.supply && (b.procs[p].grant.Some? ==> b.procs[p].grant.value.hash.value >= a.supply))
  }

  ghost predicate StepsEvolve(a: DB, b: DB) {
    && (forall s | s in a.steps && a.steps[s].process in b.procs :: s in b.steps)
    && (forall s | s in b.steps && s in a.steps :: StepEvolves(a.steps[s], b.steps[s]))
    && (forall s | s in b.steps && s !in a.steps :: s >= a.supply)
  }

  ghost predicate Evolved(a: DB, b: DB) {
    ProcsEvolve(a, b) && StepsEvolve(a, b)
  }

  lemma EvolvedItself(a: DB)
    ensures Evolved(a, a)
  {
  }

  // Numbers are not reused, so what vanished does not come back.
  lemma ProcsEvolveOn(a: DB, b: DB, c: DB)
    requires ProcsEvolve(a, b) && ProcsEvolve(b, c) && ProcKeysOk(a.procs, a.supply)
    ensures ProcsEvolve(a, c)
  {
    assert forall p | p in c.procs && p in a.procs :: p in b.procs;
    hide ProcKeysOk;
  }

  lemma StepsEvolveOn(a: DB, b: DB, c: DB, clock: Time)
    requires StepsEvolve(a, b) && StepsEvolve(b, c) && ProcsEvolve(a, b) && ProcsEvolve(b, c)
    requires ProcKeysOk(a.procs, a.supply) && StepKeysOk(a.steps, a.supply) && StepsOk(a.procs, a.steps, clock)
    ensures StepsEvolve(a, c)
  {
    assert forall s | s in c.steps && s in a.steps :: s in b.steps;
    forall s | s in a.steps && a.steps[s].process in c.procs
      ensures s in c.steps
    {
      var p := a.steps[s].process;
      assert p in a.procs && p < a.supply;
      assert p in b.procs;
    }
    hide ProcKeysOk, StepsOk, RowEvolves, GrantEvolves;
  }

  // ---------- one transaction ----------

  lemma QuietEvolves(a: DB, b: DB)
    requires Quiet(a, b)
    ensures Evolved(a, b)
  {
    hide QuietTotp, QuietSignups;
    assert forall p | p in b.procs :: Calmer(a.procs[p], b.procs[p]);
  }

  lemma DrawnEvolves(a: DB, b: DB, id: Id)
    requires GrantDrawn(a, b, id)
    requires id in a.procs ==> a.procs[id].status == Pending && RowEvolves(a.procs[id], b.procs[id])
    ensures ProcsEvolve(a, b)
  {
  }

  lemma StartEvolves(cfg: Config, db: DB, now: Time, name: string, who: Principal)
    requires StartTx(cfg, db, now, name, who).Ok? && ProcKeysOk(db.procs, db.supply)
    ensures Evolved(db, StartTx(cfg, db, now, name, who).value.db)
  {
    var b := StartTx(cfg, db, now, name, who).value.db;
    StartMakes(cfg, db, now, name, who);
    StartDraws(cfg, db, now, name, who);
    hide StartTx, JustStarted;
    assert db.supply !in db.procs;
    hide ProcKeysOk;
    DrawnEvolves(db, b, db.supply);
    hide GrantDrawn, ProcsEvolve;
  }

  lemma ChallengeEvolves(a: DB, b: DB, id: Id, kind: Kind)
    requires StepAdded(a, b, id, kind) && a.supply !in a.steps && ProcKeysOk(a.procs, a.supply)
    ensures Evolved(a, b)
  {
  }

  lemma CountEvolves(cfg: Config, a: DB, id: Id, cid: Id)
    requires OpenStep(a, id, cid) && a.procs[id].invalid.None?
    ensures Evolved(a, CountFailure(cfg, a, id, cid))
  {
  }

  lemma AdvancedEvolves(a: DB, b: DB, id: Id, cid: Id, now: Time)
    requires Advanced(a, b, id, cid, now) && Moved(a.procs[id], b.procs[id], now) && GrantDrawn(a, b, id)
    ensures Evolved(a, b)
  {
    DrawnEvolves(a, b, id);
    hide GrantDrawn;
  }

  lemma WorkedEvolves(cfg: Config, a: DB, b: DB, id: Id, cid: Id, now: Time)
    requires Worked(cfg, a, b, id, cid, now) && GrantDrawn(a, b, id)
    ensures Evolved(a, b)
  {
    if b == CountFailure(cfg, a, id, cid) {
      CountEvolves(cfg, a, id, cid);
    } else {
      AdvancedEvolves(a, b, id, cid, now);
    }
    hide Core, StepKeysOk, CountFailure, Advanced, GrantDrawn, Evolved;
  }

  lemma NoisyEvolves(cfg: Config, db: DB, clock: Time, call: Call)
    requires FlowsOk(cfg, db, clock) && clock <= call.now && Numbered(db.totp, db.supply) && Noisy(call.action)
    requires Transact(cfg, db, call.now, call.action).Ok?
    ensures Evolved(db, Apply(cfg, db, call).db)
  {
    var b, now := Apply(cfg, db, call).db, call.now;
    hide Core, Numbered, StartTx, CreateChallengeTx, AttemptTx, FinishProviderTx, RejectProviderTx, Evolved, StepKeysOk, ProcKeysOk;
    hide GrantDrawn, Worked, StepAdded;
    match call.action
    case Start(name, who) => StartEvolves(cfg, db, now, name, who);
    case CreateChallenge(id, flow, kind, who, options, code, libraryOk) =>
      CreateChallengeMakes(cfg, db, now, id, flow, kind, who, options, code, libraryOk);
      NextIdIsNoStep(db);
      ChallengeEvolves(db, b, id, kind);
    case Attempt(id, cid, flow, who, proof) =>
      AttemptKeepsCore(cfg, db, clock, now, id, cid, flow, who, proof);
      AttemptDraws(cfg, db, now, id, cid, flow, who, proof);
      WorkedEvolves(cfg, db, b, id, cid, now);
    case FinishProvider(id, cid, flow, who, kind, subject) =>
      FinishKeepsCore(cfg, db, clock, now, id, cid, flow, who, kind, subject);
      FinishProviderDraws(cfg, db, now, id, cid, flow, who, kind, subject);
      WorkedEvolves(cfg, db, b, id, cid, now);
    case RejectProvider(id, cid, flow, who) =>
      RejectEvolves(cfg, db, clock, now, id, cid, flow, who);
  }

  lemma NextIdIsNoStep(db: DB)
    requires StepKeysOk(db.steps, db.supply)
    ensures db.supply !in db.steps
  {
  }

  lemma RejectEvolves(cfg: Config, db: DB, clock: Time, now: Time, id: Id, cid: Id, flow: Id, who: Principal)
    requires RejectProviderTx(cfg, db, now, id, cid, flow, who).Ok?
    ensures Evolved(db, RejectProviderTx(cfg, db, now, id, cid, flow, who).value.db)
  {
    CountEvolves(cfg, db, id, cid);
    hide Evolved, CountFailure, FailureAnswer, PurposePrincipal;
  }

  lemma EveryActionEvolves(cfg: Config, db: DB, clock: Time, call: Call)
    requires FlowsOk(cfg, db, clock) && clock <= call.now && Numbered(db.totp, db.supply)
    ensures Evolved(db, Apply(cfg, db, call).db)
  {
    hide Transact;
    if !Noisy(call.action) {
      InvRooted(cfg, db, clock);
      OthersAreQuiet(cfg, db, call);
      QuietEvolves(db, Apply(cfg, db, call).db);
      hide *;
    } else if Transact(cfg, db, call.now, call.action).Ok? {
      NoisyEvolves(cfg, db, clock, call);
      hide *;
    } else {
      EvolvedItself(db);
      hide Transact, FlowsOk, Evolved;
    }
  }

  // ---------- whole runs ----------

  /** Over every run, from every state that satisfies the invariant. */
  lemma {:induction false} RunEvolves(cfg: Config, db: DB, clock: Time, run: seq<Call>, now: Time)
    requires Inv(cfg, db, clock) && Follows(clock, run, now)
    ensures Evolved(db, RunFrom(cfg, db, run))
    decreases |run|
  {
    hide Inv, Apply, Evolved;
    if run == [] {
      EvolvedItself(db);
    } else {
      var n := |run| - 1;
      FollowsPrefix(clock, run, now);
      RunEvolves(cfg, db, clock, run[..n], run[n].now);
      InvThroughout(cfg, db, clock, run[..n], run[n].now);
      InvLater(cfg, db, clock, run[n].now);
      EvolvesThrough(cfg, db, RunFrom(cfg, db, run[..n]), run[n]);
    }
  }

  lemma EvolvesThrough(cfg: Config, a: DB, b: DB, call: Call)
    requires Evolved(a, b) && Inv(cfg, a, call.now) && Inv(cfg, b, call.now)
    ensures Evolved(a, Apply(cfg, b, call).db)
  {
    hide Apply, ProcsEvolve, StepsEvolve;
    EveryActionEvolves(cfg, b, call.now, call);
    var c := Apply(cfg, b, call).db;
    ProcsEvolveOn(a, b, c);
    StepsEvolveOn(a, b, c, call.now);
    hide Core, Keys;
  }

  lemma InvEvolves(cfg: Config, db: DB, clock: Time, call: Call)
    requires Inv(cfg, db, clock) && clock <= call.now
    ensures Evolved(db, Apply(cfg, db, call).db)
  {
    hide *;
    InvFlows(cfg, db, clock);
    EveryActionEvolves(cfg, db, clock, call);
  }
}
