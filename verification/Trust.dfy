/** A process completed at its start rests on a real, recent proof of the same account and session. */
module Trust {
  import opened Base
  import opened Secrets
  import opened Store
  import opened Answers
  import opened Processes
  import opened Challenges
  import opened Totps
  import opened Protocol
  import opened Invariant
  import opened Quietness
  import opened Frames
  import opened Flows
  import opened FlowActions
  import opened Acceptance
  import opened Attempts
  import opened KeyActions
  import opened Reachability
  import opened Evolution
  import opened Barriers
  import opened Progress

  // ---------- where processes and completions come from ----------

  /** What a committed call on flows does: it starts a process, adds a step, or has a step judged. */
  ghost predicate FlowMoves(cfg: Config, a: DB, b: DB, call: Call) {
    match call.action
    case Start(_, _) => a.supply in b.procs && b == a.(procs := a.procs[a.supply := b.procs[a.supply]], supply := b.supply)
    case CreateChallenge(id, _, kind, _, _, _, _) => StepAdded(a, b, id, kind)
    case Attempt(id, cid, _, _, _) => Worked(cfg, a, b, id, cid, call.now)
    case FinishProvider(id, cid, _, _, _, _) => Worked(cfg, a, b, id, cid, call.now)
    case RejectProvider(id, cid, _, _) => Worked(cfg, a, b, id, cid, call.now)
    case _ => false
  }

  lemma NoisyMoves(cfg: Config, db: DB, clock: Time, call: Call)
    requires FlowsOk(cfg, db, clock) && clock <= call.now && Numbered(db.totp, db.supply)
    requires Noisy(call.action) && Transact(cfg, db, call.now, call.action).Ok?
    ensures FlowMoves(cfg, db, Apply(cfg, db, call).db, call)
  {
    hide *;
    var now := call.now;
    NoisyActions(call.action);
    FlowsParts(cfg, db, clock);
    Dispatched(cfg, db, call);
    match call.action
    case Start(name, who) =>
      StartMakes(cfg, db, now, name, who);
      StartIsMove(cfg, db, Apply(cfg, db, call).db, call);
    case CreateChallenge(id, flow, kind, who, options, code, libraryOk) =>
      CreateChallengeMakes(cfg, db, now, id, flow, kind, who, options, code, libraryOk);
      AdditionIsMove(cfg, db, Apply(cfg, db, call).db, call);
    case Attempt(id, cid, flow, who, proof) =>
      AttemptKeepsCore(cfg, db, clock, now, id, cid, flow, who, proof);
      JudgmentIsMove(cfg, db, Apply(cfg, db, call).db, call);
    case FinishProvider(id, cid, flow, who, kind, subject) =>
      FinishKeepsCore(cfg, db, clock, now, id, cid, flow, who, kind, subject);
      JudgmentIsMove(cfg, db, Apply(cfg, db, call).db, call);
    case RejectProvider(id, cid, flow, who) =>
      RejectKeepsCore(cfg, db, clock, now, id, cid, flow, who);
      JudgmentIsMove(cfg, db, Apply(cfg, db, call).db, call);
  }

  lemma FlowsParts(cfg: Config, db: DB, clock: Time)
    requires FlowsOk(cfg, db, clock)
    ensures Core(cfg, db, clock) && StepKeysOk(db.steps, db.supply) && ProcKeysOk(db.procs, db.supply)
  {
  }

  lemma StartIsMove(cfg: Config, a: DB, b: DB, call: Call)
    requires call.action.Start? && a.supply in b.procs && b == a.(procs := a.procs[a.supply := b.procs[a.supply]], supply := b.supply)
    ensures FlowMoves(cfg, a, b, call)
  {
  }

  lemma AdditionIsMove(cfg: Config, a: DB, b: DB, call: Call)
    requires call.action.CreateChallenge? && StepAdded(a, b, call.action.id, call.action.kind)
    ensures FlowMoves(cfg, a, b, call)
  {
    hide StepAdded;
  }

  lemma JudgmentIsMove(cfg: Config, a: DB, b: DB, call: Call)
    requires (call.action.Attempt? || call.action.FinishProvider? || call.action.RejectProvider?)
    requires Worked(cfg, a, b, call.action.id, call.action.cid, call.now)
    ensures FlowMoves(cfg, a, b, call)
  {
    hide Worked;
  }

  lemma FlowMovesOthers(cfg: Config, a: DB, b: DB, call: Call)
    requires FlowMoves(cfg, a, b, call)
    ensures forall p | p in b.procs :: p in a.procs || (call.action.Start? && p == a.supply)
    ensures forall p | p in a.procs && p in b.procs && a.procs[p].status == Pending && b.procs[p].status == Completed :: call.action.Start? || HasSteps(b.steps, p)
  {
    hide HasSteps, Worked, StepAdded;
    match call.action
    case Start(_, _) =>
    case CreateChallenge(id, _, kind, _, _, _, _) => AddedProcs(a, b, id, kind);
    case Attempt(id, cid, _, _, _) => WorkedStartsNothing(cfg, a, b, id, cid, call.now);
    case FinishProvider(id, cid, _, _, _, _) => WorkedStartsNothing(cfg, a, b, id, cid, call.now);
    case RejectProvider(id, cid, _, _) => WorkedStartsNothing(cfg, a, b, id, cid, call.now);
  }

  lemma AddedProcs(a: DB, b: DB, id: Id, kind: Kind)
    requires StepAdded(a, b, id, kind)
    ensures b.procs == a.procs
  {
  }

  lemma NewProcessIsStarted(cfg: Config, db: DB, clock: Time, call: Call, id: Id)
    requires FlowsOk(cfg, db, clock) && clock <= call.now && Numbered(db.totp, db.supply)
    requires id in Apply(cfg, db, call).db.procs && id !in db.procs
    ensures call.action.Start? && id == db.supply && Transact(cfg, db, call.now, call.action).Ok?
  {
    hide *;
    Dispatched(cfg, db, call);
    if !Noisy(call.action) {
      FlowsRooted(cfg, db, clock);
      OthersAreQuiet(cfg, db, call);
      QuietStartsNothing(db, Apply(cfg, db, call).db, id);
    } else if Transact(cfg, db, call.now, call.action).Ok? {
      NoisyMoves(cfg, db, clock, call);
      FlowMovesOthers(cfg, db, Apply(cfg, db, call).db, call);
    }
  }

  lemma QuietStartsNothing(a: DB, b: DB, id: Id)
    requires Quiet(a, b) && id in b.procs
    ensures id in a.procs
  {
  }

  lemma WorkedStartsNothing(cfg: Config, a: DB, b: DB, id: Id, cid: Id, now: Time)
    requires Worked(cfg, a, b, id, cid, now)
    ensures b.procs.Keys == a.procs.Keys
    ensures forall p | p in a.procs && p != id :: b.procs[p] == a.procs[p]
    ensures HasSteps(b.steps, id)
  {
    hide Core, Moved, StepKeysOk, Advanced, CountFailure, HasSteps;
    if b == CountFailure(cfg, a, id, cid) {
      CountStartsNothing(cfg, a, id, cid);
    } else {
      AdvancedStartsNothing(a, b, id, cid, now);
    }
  }

  lemma CountStartsNothing(cfg: Config, a: DB, id: Id, cid: Id)
    requires OpenStep(a, id, cid)
    ensures var b := CountFailure(cfg, a, id, cid);
      && b.procs.Keys == a.procs.Keys && (forall p | p in a.procs && p != id :: b.procs[p] == a.procs[p])
      && HasSteps(b.steps, id)
  {
    assert cid in CountFailure(cfg, a, id, cid).steps;
  }

  lemma AdvancedStartsNothing(a: DB, b: DB, id: Id, cid: Id, now: Time)
    requires Advanced(a, b, id, cid, now)
    ensures b.procs.Keys == a.procs.Keys && (forall p | p in a.procs && p != id :: b.procs[p] == a.procs[p])
    ensures HasSteps(b.steps, id)
  {
    assert cid in b.steps && b.steps[cid].process == id;
  }

  /** A process that completes later than it starts completes by a step of its own. */
  lemma CompletionHasSteps(cfg: Config, db: DB, clock: Time, call: Call, id: Id)
    requires FlowsOk(cfg, db, clock) && clock <= call.now && Numbered(db.totp, db.supply)
    requires id in db.procs && db.procs[id].status == Pending
    requires id in Apply(cfg, db, call).db.procs && Apply(cfg, db, call).db.procs[id].status == Completed
    ensures HasSteps(Apply(cfg, db, call).db.steps, id)
  {
    hide *;
    Dispatched(cfg, db, call);
    if !Noisy(call.action) {
      FlowsRooted(cfg, db, clock);
      OthersAreQuiet(cfg, db, call);
      QuietCompletesNothing(db, Apply(cfg, db, call).db, id);
    } else if Transact(cfg, db, call.now, call.action).Ok? {
      NoisyMoves(cfg, db, clock, call);
      FlowMovesOthers(cfg, db, Apply(cfg, db, call).db, call);
      FlowsParts(cfg, db, clock);
      StartedIsNew(cfg, db, Apply(cfg, db, call).db, call);
    }
  }

  lemma StartedIsNew(cfg: Config, a: DB, b: DB, call: Call)
    requires FlowMoves(cfg, a, b, call) && ProcKeysOk(a.procs, a.supply)
    ensures call.action.Start? ==> forall p | p in a.procs :: p in b.procs && b.procs[p] == a.procs[p]
  {
  }

  lemma QuietCompletesNothing(a: DB, b: DB, id: Id)
    requires Quiet(a, b) && id in b.procs
    ensures id in a.procs && b.procs[id].status == a.procs[id].status
  {
    assert Calmer(a.procs[id], b.procs[id]);
  }

  // ---------- evidence ----------

  // A process completed on the evidence of another has no steps, and so is evidence for nothing.
  lemma DerivedBacksNothing(db: DB, id: Id, account: Id, session: Id, after: Time)
    requires !HasSteps(db.steps, id)
    ensures !Evidence(db, id, account, session, after)
  {
  }

  /** The process p was started and completed by step n of the run, on evidence of its account and session at hand then. */
  ghost predicate Derivation(cfg: Config, run: seq<Call>, n: nat, id: Id, p: Process) {
    && n < |run| && run[n].action.Start? && After(cfg, run[..n]).supply == id
    && p.account.Some? && p.session.Some? && p.completed == Some(run[n].now)
    && Reusable(After(cfg, run[..n]), p.account.value, p.session.value, run[n].now - cfg.reuseTTL)
  }

  /** A live process of an account enrolled now was started when the account was enrolled already. */
  ghost predicate EnrolledThen(cfg: Config, run: seq<Call>, n: nat, p: Process) {
    n < |run| && p.account.Some? && (p.invalid.None? && p.account.value in After(cfg, run).totp ==> p.account.value in After(cfg, run[..n]).totp)
  }

  lemma OpenedIsNoEvidence(cfg: Config, db: DB, now: Time, purpose: Purpose, who: Principal, q: Id, account: Id, session: Id, after: Time)
    requires Evidence(Opened(cfg, db, now, purpose, who), q, account, session, after)
    ensures Evidence(db, q, account, session, after)
  {
    hide FreshFirst, FreshSecond;
  }

  lemma StartedOnEvidence(cfg: Config, db: DB, now: Time, name: string, who: Principal)
    requires StartTx(cfg, db, now, name, who).Ok?
    requires var b := StartTx(cfg, db, now, name, who).value.db; db.supply in b.procs && b.procs[db.supply].status == Completed
    ensures var p := StartTx(cfg, db, now, name, who).value.db.procs[db.supply];
      && p.account.Some? && p.session.Some? && p.completed == Some(now)
      && Reusable(db, p.account.value, p.session.value, now - cfg.reuseTTL)
  {
    StartDecides(cfg, db, now, name, who);
    var purpose := ParsePurpose(name).value;
    hide StartTx, ParsePurpose, Evidence;
    var d := Opened(cfg, db, now, purpose, who);
    var q :| q in d.procs && Evidence(d, q, who.account, who.session, now - cfg.reuseTTL);
    OpenedIsNoEvidence(cfg, db, now, purpose, who, q, who.account, who.session, now - cfg.reuseTTL);
  }

  // Whoever enrols loses the processes of before.
  lemma EnrolmentVoids(cfg: Config, db: DB, call: Call, account: Id)
    requires account in Apply(cfg, db, call).db.totp && account !in db.totp
    ensures Voided(Apply(cfg, db, call).db, account)
  {
    hide *;
    Dispatched(cfg, db, call);
    OthersEnrolNobody(cfg, db, call);
    match call.action
    case ConfirmTotp(who, digits) => ConfirmTotpEnrols(cfg, db, call.now, who, digits, account);
    case Attempt(id, cid, flow, who, proof) => AttemptSpends(cfg, db, call.now, id, cid, flow, who, proof);
    case DeleteTotp(who, grant) => RemovalEnrolsNobody(db, call.now, who, grant);
    case DeleteDue => DeleteDueDrops(db, call.now);
    case _ =>
  }

  lemma OthersEnrolNobody(cfg: Config, db: DB, call: Call)
    ensures var a, b := call.action, Apply(cfg, db, call).db;
      (!a.ConfirmTotp? && !a.Attempt? && !a.DeleteTotp? && !a.DeleteDue?) || FactorsSpent(db, b) || Within(b.totp, db.totp)
      ==> b.totp.Keys <= db.totp.Keys
    ensures call.action.Start? ==> Apply(cfg, db, call).db.totp == db.totp
  {
    hide Apply;
    EveryActionFramed(cfg, db, call);
  }

  lemma RemovalEnrolsNobody(db: DB, now: Time, who: Principal, grant: Id)
    ensures Settle(db, DeleteTotpTx(db, now, who, grant)).db.totp.Keys <= db.totp.Keys
  {
    hide ConsumeGrant, InvalidateRow;
  }

  lemma ConfirmTotpEnrols(cfg: Config, db: DB, now: Time, who: Principal, digits: string, account: Id)
    requires var b := Settle(db, ConfirmTotpTx(cfg, db, now, who, digits)).db; account in b.totp && account !in db.totp
    ensures Voided(Settle(db, ConfirmTotpTx(cfg, db, now, who, digits)).db, account)
  {
    ConfirmTotpVoids(cfg, db, now, who, digits);
    var d := ConfirmTotpTx(cfg, db, now, who, digits).value.db;
    var key := db.activations[who.account].key;
    var used := TotpStep(cfg.mac, key, digits, now, -1);
    var c := db.(totp := db.totp[who.account := TotpFactor(key, used.value)], activations := db.activations - {who.account});
    EnrolmentKept(c, who.account, now, SessionsOf(Invalidate(c, who.account, now), who.account) - {who.session});
    assert d.totp == c.totp by {
      hide TotpStep, DropSessions, Invalidate, PurposePrincipal;
    }
    hide ConfirmTotpTx, Voided;
  }

  // ---------- the trust window ----------

  /** A settled row later: the same binding and completion, and live only if nobody enrolled since. */
  predicate Settled(p: Process, q: Process, before: map<Id, TotpFactor>, after: map<Id, TotpFactor>) {
    && q.account == p.account && q.session == p.session && q.completed == p.completed && q.status == p.status
    && (q.invalid.None? ==> p.invalid.None? && (Enrolled(q, after) ==> Enrolled(p, before)))
  }

  lemma CompletedRowStays(cfg: Config, db: DB, call: Call, id: Id)
    requires Inv(cfg, db, call.now) && id in db.procs && db.procs[id].status == Completed && id in Apply(cfg, db, call).db.procs
    ensures Settled(db.procs[id], Apply(cfg, db, call).db.procs[id], db.totp, Apply(cfg, db, call).db.totp)
  {
    var b := Apply(cfg, db, call).db;
    hide Apply, Core;
    EveryActionEvolves(cfg, db, call.now, call);
    assert RowEvolves(db.procs[id], b.procs[id]) by { hide StepsEvolve, Keys; }
    hide Evolved, Keys;
    if b.procs[id].account.Some? && b.procs[id].account.value in b.totp && b.procs[id].account.value !in db.totp {
      EnrolmentVoids(cfg, db, call, b.procs[id].account.value);
    }
  }

  // One more step of the run.
  lemma DerivationKept(cfg: Config, run: seq<Call>, n: nat, id: Id, p: Process, q: Process)
    requires run != [] && n < |run| - 1 && Derivation(cfg, run[..|run| - 1], n, id, p) && EnrolledThen(cfg, run[..|run| - 1], n, p)
    requires Settled(p, q, After(cfg, run[..|run| - 1]).totp, After(cfg, run).totp)
    ensures Derivation(cfg, run, n, id, q) && EnrolledThen(cfg, run, n, q)
  {
    hide Transact;
    assert run[..|run| - 1][..n] == run[..n];
    hide After, Reusable;
  }

  lemma DerivationStarts(cfg: Config, run: seq<Call>, now: Time, id: Id)
    requires Ordered(run, now) && run != []
    requires id in After(cfg, run).procs && After(cfg, run).procs[id].status == Completed && id !in After(cfg, run[..|run| - 1]).procs
    ensures Derivation(cfg, run, |run| - 1, id, After(cfg, run).procs[id]) && EnrolledThen(cfg, run, |run| - 1, After(cfg, run).procs[id])
  {
    hide Transact;
    var m := |run| - 1;
    var a, b, call := After(cfg, run[..m]), After(cfg, run), run[m];
    OrderedPrefix(run, now, m);
    Reachable(cfg, run[..m], call.now);
    hide Core, Transact;
    assert b == Apply(cfg, a, call).db;
    hide After, Apply;
    NewProcessIsStarted(cfg, a, call.now, call, id);
    var name, who := call.action.name, call.action.who;
    StartedBy(cfg, a, call);
    hide Keys;
    StartedOnEvidence(cfg, a, call.now, name, who);
    StartMakes(cfg, a, call.now, name, who);
    hide StartTx, Reusable;
    StartedEnrolsNobody(cfg, a, call, b);
  }

  lemma StartedBy(cfg: Config, a: DB, call: Call)
    requires call.action.Start? && Transact(cfg, a, call.now, call.action).Ok?
    ensures var r := StartTx(cfg, a, call.now, call.action.name, call.action.who);
      r.Ok? && Apply(cfg, a, call).db == r.value.db
  {
    hide StartTx;
  }

  lemma StartedEnrolsNobody(cfg: Config, a: DB, call: Call, b: DB)
    requires call.action.Start? && b == Apply(cfg, a, call).db
    ensures b.totp == a.totp
  {
    hide Transact;
    OthersEnrolNobody(cfg, a, call);
  }

  // The step of the run at which a process without steps was completed.
  lemma {:induction false} FindDerivation(cfg: Config, run: seq<Call>, now: Time, id: Id) returns (n: nat)
    requires Ordered(run, now)
    requires id in After(cfg, run).procs && After(cfg, run).procs[id].status == Completed && !HasSteps(After(cfg, run).steps, id)
    ensures Derivation(cfg, run, n, id, After(cfg, run).procs[id]) && EnrolledThen(cfg, run, n, After(cfg, run).procs[id])
  {
    hide Apply;
    assert run != [];
    var m := |run| - 1;
    var a, b, call := After(cfg, run[..m]), After(cfg, run), run[m];
    OrderedPrefix(run, now, m);
    hide Apply, HasSteps, Derivation, EnrolledThen;
    if id in a.procs {
      UnsteppedBefore(cfg, run, now, id);
      n := FindDerivation(cfg, run[..m], call.now, id);
      Reachable(cfg, run[..m], call.now);
      CompletedRowStays(cfg, a, call, id);
      BeforeTheLast(cfg, run, n, id, a.procs[id]);
      DerivationKept(cfg, run, n, id, a.procs[id], b.procs[id]);
    } else {
      n := m;
      DerivationStarts(cfg, run, now, id);
    }
  }

  lemma BeforeTheLast(cfg: Config, run: seq<Call>, n: nat, id: Id, p: Process)
    requires run != [] && Derivation(cfg, run[..|run| - 1], n, id, p)
    ensures n < |run| - 1
  {
    hide Transact;

  }

  lemma UnsteppedBefore(cfg: Config, run: seq<Call>, now: Time, id: Id)
    requires Ordered(run, now) && run != []
    requires id in After(cfg, run).procs && After(cfg, run).procs[id].status == Completed && !HasSteps(After(cfg, run).steps, id)
    requires id in After(cfg, run[..|run| - 1]).procs
    ensures var a := After(cfg, run[..|run| - 1]); a.procs[id].status == Completed && !HasSteps(a.steps, id)
  {
    hide Apply;
    var m := |run| - 1;
    var a, b, call := After(cfg, run[..m]), After(cfg, run), run[m];
    OrderedPrefix(run, now, m);
    Reachable(cfg, run[..m], call.now);
    assert b == Apply(cfg, a, call).db;
    hide After, Core, Apply;
    EveryActionEvolves(cfg, a, call.now, call);
    if HasSteps(a.steps, id) {
      StepsComeAlong(a, b, id);
    }
    assert RowEvolves(a.procs[id], b.procs[id]);
    hide Evolved, Keys, HasSteps;
    if a.procs[id].status == Pending {
      CompletionHasSteps(cfg, a, call.now, call, id);
    }
  }

  lemma StepsComeAlong(a: DB, b: DB, id: Id)
    requires Evolved(a, b) && id in b.procs && HasSteps(a.steps, id)
    ensures HasSteps(b.steps, id)
  {
  }

  /** A completed process without steps was completed by its start, on recent steps of another process of its account and session. */
  lemma TrustWindow(cfg: Config, run: seq<Call>, now: Time, id: Id)
    requires Ordered(run, now)
    requires id in After(cfg, run).procs && After(cfg, run).procs[id].status == Completed && !HasSteps(After(cfg, run).steps, id)
    ensures exists n :: Derivation(cfg, run, n, id, After(cfg, run).procs[id]) && EnrolledThen(cfg, run, n, After(cfg, run).procs[id])
  {
    hide Transact;
    var n := FindDerivation(cfg, run, now, id);
    hide *;
  }

  // ---------- a process completed by its start stays without steps ----------

  lemma WorkedElsewhere(cfg: Config, a: DB, b: DB, other: Id, cid: Id, now: Time, id: Id)
    requires Worked(cfg, a, b, other, cid, now) && StepKeysOk(a.steps, a.supply) && id in a.procs && a.procs[id].status == Completed
    ensures HasSteps(b.steps, id) <==> HasSteps(a.steps, id)
  {
    hide Focus, HasSteps, Core, Advanced, CountFailure, StepKeysOk, Moved;
    WorkedFocus(cfg, a, b, other, cid, now);
    FocusKeepsOthers(a, b, other, id);
  }

  lemma AddedElsewhere(a: DB, b: DB, other: Id, kind: Kind, id: Id)
    requires StepAdded(a, b, other, kind) && StepKeysOk(a.steps, a.supply) && id in a.procs && a.procs[id].status == Completed
    ensures HasSteps(b.steps, id) <==> HasSteps(a.steps, id)
  {
    ChallengeFocus(a, b, other, kind);
    hide Focus, HasSteps, StepKeysOk, CancelPending;
    FocusKeepsOthers(a, b, other, id);
  }

  lemma QuietAddsNone(a: DB, b: DB, id: Id)
    requires Quiet(a, b) && !HasSteps(a.steps, id)
    ensures !HasSteps(b.steps, id)
  {
  }

  lemma StartAddsNone(cfg: Config, db: DB, now: Time, name: string, who: Principal)
    ensures Settle(db, StartTx(cfg, db, now, name, who)).db.steps == db.steps
  {
    hide StartTx;
    FrameStart(cfg, db, now, name, who);
  }

  lemma MovesElsewhere(cfg: Config, a: DB, b: DB, call: Call, id: Id)
    requires FlowMoves(cfg, a, b, call) && StepKeysOk(a.steps, a.supply) && id in a.procs && a.procs[id].status == Completed
    ensures HasSteps(b.steps, id) <==> HasSteps(a.steps, id)
  {
    hide HasSteps, Worked, StepAdded, StepKeysOk;
    match call.action
    case Start(_, _) =>
    case CreateChallenge(other, _, kind, _, _, _, _) => AddedElsewhere(a, b, other, kind, id);
    case Attempt(other, cid, _, _, _) => WorkedElsewhere(cfg, a, b, other, cid, call.now, id);
    case FinishProvider(other, cid, _, _, _, _) => WorkedElsewhere(cfg, a, b, other, cid, call.now, id);
    case RejectProvider(other, cid, _, _) => WorkedElsewhere(cfg, a, b, other, cid, call.now, id);
  }

  lemma CompletedGainsNoSteps(cfg: Config, db: DB, clock: Time, call: Call, id: Id)
    requires FlowsOk(cfg, db, clock) && clock <= call.now && Numbered(db.totp, db.supply)
    requires id in db.procs && db.procs[id].status == Completed && !HasSteps(db.steps, id)
    ensures !HasSteps(Apply(cfg, db, call).db.steps, id)
  {
    hide *;
    Dispatched(cfg, db, call);
    FlowsParts(cfg, db, clock);
    if !Noisy(call.action) {
      FlowsRooted(cfg, db, clock);
      OthersAreQuiet(cfg, db, call);
      QuietAddsNone(db, Apply(cfg, db, call).db, id);
    } else if Transact(cfg, db, call.now, call.action).Ok? {
      NoisyMoves(cfg, db, clock, call);
      MovesElsewhere(cfg, db, Apply(cfg, db, call).db, call, id);
    }
  }

  lemma UnbornHasNoSteps(cfg: Config, db: DB, clock: Time, id: Id)
    requires Core(cfg, db, clock) && id !in db.procs
    ensures !HasSteps(db.steps, id)
  {
    hide ProcsOk, OneEach, Budget, Stages, StepOk;
  }

  /** The start of step n completed the process. */
  ghost predicate StartCompletes(cfg: Config, run: seq<Call>, n: nat, id: Id) {
    && n < |run| && run[n].action.Start?
    && id !in After(cfg, run[..n]).procs
    && id in After(cfg, run[..n + 1]).procs && After(cfg, run[..n + 1]).procs[id].status == Completed
  }

  lemma StartCompletesBare(cfg: Config, run: seq<Call>, now: Time, id: Id)
    requires Ordered(run, now) && run != [] && StartCompletes(cfg, run, |run| - 1, id)
    ensures !HasSteps(After(cfg, run).steps, id)
  {
    hide HasSteps, Core, Transact, Keys, StartTx;
    var m := |run| - 1;
    var a, call := After(cfg, run[..m]), run[m];
    OrderedPrefix(run, now, m);
    assert run[..m + 1] == run;
    Reachable(cfg, run[..m], call.now);
    UnbornHasNoSteps(cfg, a, call.now, id);
    StartCallAddsNone(cfg, a, call);
  }

  lemma StartCallAddsNone(cfg: Config, db: DB, call: Call)
    requires call.action.Start?
    ensures Apply(cfg, db, call).db.steps == db.steps
  {
    hide *;
    Dispatched(cfg, db, call);
    StartAddsNone(cfg, db, call.now, call.action.name, call.action.who);
  }

  /** It never acquires a step, for as long as it is there. */
  lemma {:induction false} StartedCompleteStaysBare(cfg: Config, run: seq<Call>, now: Time, n: nat, id: Id)
    requires Ordered(run, now) && StartCompletes(cfg, run, n, id) && id in After(cfg, run).procs
    ensures After(cfg, run).procs[id].status == Completed && !HasSteps(After(cfg, run).steps, id)
    decreases |run|
  {
    hide After, Apply, HasSteps, Inv;
    var m := |run| - 1;
    assert run[..|run|] == run;
    if n == m {
      StartCompletesBare(cfg, run, now, id);
    } else {
      assert run[..m][..n] == run[..n] && run[..m][..n + 1] == run[..n + 1];
      OrderedPrefix(run, now, m);
      KeptSince(cfg, run, now, n, id);
      StartedCompleteStaysBare(cfg, run[..m], run[m].now, n, id);
      LastCallKeepsBare(cfg, run, now, id);
    }
  }

  // A process that is there at the end was there at every moment since it began.
  lemma KeptSince(cfg: Config, run: seq<Call>, now: Time, n: nat, id: Id)
    requires Ordered(run, now) && n < |run| - 1
    requires id in After(cfg, run[..n + 1]).procs && id in After(cfg, run).procs
    ensures id in After(cfg, run[..|run| - 1]).procs
  {
    hide After, Apply, Inv, Evolved;
    var m := |run| - 1;
    RunBetween(cfg, run, now, n, m);
    var b, c := After(cfg, run[..n + 1]), After(cfg, run[..m]);
    RunEvolves(cfg, b, run[n].now, run[n + 1..m], run[m].now);
    LastCall(cfg, run);
    InvEvolves(cfg, c, run[m].now, run[m]);
    InvDrawnProcs(cfg, b, run[n].now);
    StaysAway(b, c, After(cfg, run), id);
  }

  lemma LastCall(cfg: Config, run: seq<Call>)
    requires run != []
    ensures After(cfg, run) == Apply(cfg, After(cfg, run[..|run| - 1]), run[|run| - 1]).db
  {
    hide Apply;
  }

  lemma InvDrawnProcs(cfg: Config, db: DB, clock: Time)
    requires Inv(cfg, db, clock)
    ensures forall p | p in db.procs :: p < db.supply
  {
    hide Core;
  }

  lemma StaysAway(a: DB, b: DB, c: DB, id: Id)
    requires Evolved(a, b) && Evolved(b, c) && id in a.procs && id < a.supply && id in c.procs
    ensures id in b.procs
  {
    hide StepsEvolve, RowEvolves, GrantEvolves;
  }

  lemma LastCallKeepsBare(cfg: Config, run: seq<Call>, now: Time, id: Id)
    requires Ordered(run, now) && run != [] && id in After(cfg, run).procs && id in After(cfg, run[..|run| - 1]).procs
    requires After(cfg, run[..|run| - 1]).procs[id].status == Completed && !HasSteps(After(cfg, run[..|run| - 1]).steps, id)
    ensures After(cfg, run).procs[id].status == Completed && !HasSteps(After(cfg, run).steps, id)
  {
    hide After, Apply, Core, HasSteps, StepKeysOk, ProcKeysOk, Numbered, Settled;
    var m := |run| - 1;
    var a := After(cfg, run[..m]);
    OrderedPrefix(run, now, m);
    Reachable(cfg, run[..m], run[m].now);
    LastCall(cfg, run);
    CompletedGainsNoSteps(cfg, a, run[m].now, run[m], id);
    CompletedRowStays(cfg, a, run[m], id);
    StatusSettled(a.procs[id], After(cfg, run).procs[id], a.totp, After(cfg, run).totp);
  }

  lemma StatusSettled(p: Process, q: Process, before: map<Id, TotpFactor>, after: map<Id, TotpFactor>)
    requires Settled(p, q, before, after)
    ensures q.status == p.status
  {
  }

  /** So the window bounds every process completed by its start, at any later moment of the run. */
  lemma StartedWithinTheWindow(cfg: Config, run: seq<Call>, now: Time, n: nat, id: Id)
    requires Ordered(run, now) && StartCompletes(cfg, run, n, id) && id in After(cfg, run).procs
    ensures exists k :: Derivation(cfg, run, k, id, After(cfg, run).procs[id]) && EnrolledThen(cfg, run, k, After(cfg, run).procs[id])
  {
    hide *;
    StartedCompleteStaysBare(cfg, run, now, n, id);
    TrustWindow(cfg, run, now, id);
  }

  /** The evidence behind the derivation held a recent second factor. */
  ghost predicate SecondFactorThen(cfg: Config, run: seq<Call>, n: nat, id: Id, p: Process) {
    && Derivation(cfg, run, n, id, p)
    && var before, after := After(cfg, run[..n]), run[n].now - cfg.reuseTTL;
      exists q | q in before.procs :: Evidence(before, q, p.account.value, p.session.value, after) && FreshSecond(before.steps, q, after)
  }

  lemma EvidenceOfSecond(cfg: Config, run: seq<Call>, n: nat, id: Id, p: Process)
    requires Derivation(cfg, run, n, id, p) && EnrolledThen(cfg, run, n, p) && p.invalid.None? && Enrolled(p, After(cfg, run).totp)
    ensures SecondFactorThen(cfg, run, n, id, p)
  {
    hide After, FreshFirst, FreshSecond;
  }

  /** In every reachable state a live completed process of an enrolled account has proved a second factor, itself or through
      the process it was derived from, and is no registration. */
  lemma SecondFactorHolds(cfg: Config, run: seq<Call>, now: Time, id: Id)
    requires Ordered(run, now) && id in After(cfg, run).procs
    requires var p := After(cfg, run).procs[id]; p.status == Completed && p.invalid.None? && Enrolled(p, After(cfg, run).totp)
    ensures After(cfg, run).procs[id].purpose != SignUp
    ensures HasSecond(DoneKinds(After(cfg, run).steps, id)) || exists n :: SecondFactorThen(cfg, run, n, id, After(cfg, run).procs[id])
  {
    hide Apply;
    Reachable(cfg, run, now);
    var db := After(cfg, run);
    var p := db.procs[id];
    assert StageOk(id, p, db.steps, db.signups, db.totp) by { hide ProcsOk, StepsOk, OneEach, Budget, Keys, After, StageOk; }
    hide Inv, After;
    if !HasSecond(DoneKinds(db.steps, id)) {
      assert Derived(p, db.steps, id) by { hide DoneKinds, HasSteps; }
      hide StageOk, DoneKinds, HasSteps;
      var n := FindDerivation(cfg, run, now, id);
      hide EnrolledThen, Derivation, SecondFactorThen;
      EvidenceOfSecond(cfg, run, n, id, p);
    }
    hide DoneKinds, HasSteps, SecondFactorThen;
  }
}
