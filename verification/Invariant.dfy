/** What holds of the tables in every reachable state. */
module Invariant {
  import opened Base
  import opened Secrets
  import opened Store
  import opened Processes

  // ---------- keys, unique columns and tokens: everything stored was drawn from the supply ----------

  predicate IsDrawn(d: Digest, tag: Tag, supply: Id) {
    d.tag == tag && d.context == 0 && d.value < supply
  }

  ghost predicate AccountsOk(accounts: map<Id, Account>, supply: Id) {
    && (forall a | a in accounts :: a < supply)
    && (forall a, b | a in accounts && b in accounts && accounts[a].email == accounts[b].email :: a == b)
  }

  ghost predicate SessionsOk(sessions: map<Id, Session>, supply: Id) {
    && (forall s | s in sessions :: s < supply && IsDrawn(sessions[s].refresh, RefreshTag, supply))
    && (forall s, t | s in sessions && t in sessions && sessions[s].refresh == sessions[t].refresh :: s == t)
  }

  predicate SameGrant(p: Process, q: Process) {
    p.grant.Some? && q.grant.Some? && p.grant.value.hash == q.grant.value.hash
  }

  ghost predicate ProcKeysOk(procs: map<Id, Process>, supply: Id) {
    && (forall p | p in procs :: p < supply && IsDrawn(procs[p].flow, FlowTag, supply))
    && (forall p | p in procs :: procs[p].grant.Some? ==> IsDrawn(procs[p].grant.value.hash, GrantTag, supply))
    && (forall p, q | p in procs && q in procs && procs[p].flow == procs[q].flow :: p == q)
    && (forall p, q | p in procs && q in procs && SameGrant(procs[p], procs[q]) :: p == q)
  }

  ghost predicate StepKeysOk(steps: map<Id, Step>, supply: Id) {
    forall s | s in steps :: s < supply
  }

  /** A request belongs to a step or to a session. */
  predicate OneParent(o: OAuthRequest) {
    o.step.Some? <==> o.session.None?
  }

  ghost predicate OAuthOk(oauth: map<Digest, OAuthRequest>, supply: Id) {
    forall o | o in oauth :: IsDrawn(o, StateTag, supply) && OneParent(oauth[o])
  }

  ghost predicate ChangesOk(changes: map<Id, EmailChangeRequest>, supply: Id) {
    && (forall c | c in changes :: c < supply && IsDrawn(changes[c].token, EmailChangeTag, supply))
    && (forall c, d | c in changes && d in changes && changes[c].token == changes[d].token :: c == d)
  }

  ghost predicate ResetsOk(resets: map<Id, ResetRequest>, supply: Id) {
    && (forall r | r in resets :: r < supply && IsDrawn(resets[r].token, ResetTag, supply))
    && (forall r, s | r in resets && s in resets && resets[r].token == resets[s].token :: r == s)
  }

  ghost predicate Numbered<V>(m: map<Id, V>, supply: Id) {
    forall k | k in m :: k < supply
  }

  ghost predicate PasskeysOk(passkeys: map<Id, PasskeyRow>, supply: Id) {
    && (forall k | k in passkeys :: k < supply && passkeys[k].account < supply)
    && (forall k, l | k in passkeys && l in passkeys && passkeys[k].credential == passkeys[l].credential :: k == l)
  }

  ghost predicate IdentitiesOk(identities: map<IdentityKey, string>, supply: Id) {
    && (forall i | i in identities :: i.account < supply)
    && (forall i, j | i in identities && j in identities && i.provider == j.provider && identities[i] == identities[j] :: i == j)
  }

  ghost predicate BackupsOk(backups: set<BackupKey>, supply: Id) {
    forall b | b in backups :: b.hash.value < supply
  }

  ghost predicate Keys(db: DB) {
    && AccountsOk(db.accounts, db.supply)
    && SessionsOk(db.sessions, db.supply)
    && ProcKeysOk(db.procs, db.supply)
    && StepKeysOk(db.steps, db.supply)
    && OAuthOk(db.oauth, db.supply)
    && ChangesOk(db.changes, db.supply)
    && ResetsOk(db.resets, db.supply)
    && Numbered(db.totp, db.supply)
    && PasskeysOk(db.passkeys, db.supply)
    && IdentitiesOk(db.identities, db.supply)
    && BackupsOk(db.backups, db.supply)
    && Numbered(db.deletions, db.supply)
  }

  // ---------- the shape of processes and steps ----------

  predicate ProcOk(cfg: Config, p: Process, clock: Time) {
    && (p.session.Some? <==> Sensitive(p.purpose))
    && (p.session.Some? ==> p.account.Some?)
    && (p.status == Completed <==> p.completed.Some?)
    && (p.completed.Some? ==> p.account.Some? && p.completed.value <= clock)
    && (p.grant.Some? ==> p.status == Completed && p.invalid.None?)
    && (p.invalid.Some? ==> p.account.Some?)
    && (p.status == Pending ==> p.failures < cfg.maxAttempts)
    && (p.status == Failed ==> p.failures >= cfg.maxAttempts || p.purpose == SignUp)
    && p.status != Cancelled
    && (p.purpose == SignUp && p.status != Completed ==> p.account.None?)
  }

  ghost predicate ProcsOk(cfg: Config, procs: map<Id, Process>, clock: Time) {
    forall p | p in procs :: ProcOk(cfg, procs[p], clock)
  }

  predicate SignUpKind(k: Kind) {
    k == Registration || k == Email || k == PasswordSetup
  }

  predicate StepOk(s: Step, p: Process, clock: Time) {
    && (s.status == Completed <==> s.completed.Some?)
    && (s.completed.Some? ==> s.completed.value <= clock)
    && (s.completed.Some? && p.completed.Some? ==> s.completed.value <= p.completed.value)
    && (s.status == Pending ==> p.status != Completed)
    && (s.status == Failed ==> p.status == Failed)
    && (p.purpose == SignUp <==> SignUpKind(s.kind))
  }

  ghost predicate StepsOk(procs: map<Id, Process>, steps: map<Id, Step>, clock: Time) {
    forall s | s in steps :: steps[s].process in procs && StepOk(steps[s], procs[steps[s].process], clock)
  }

  /** Kinds of which a process may complete one: any first factor, either plain second factor, each sign-up stage. */
  function Slot(k: Kind): nat {
    match k
    case Registration => 0
    case Email => 1
    case PasswordSetup => 2
    case Totp => 3
    case BackupCode => 3
    case _ => 4
  }

  predicate BothPending(s: Step, t: Step) {
    s.process == t.process && s.status == Pending && t.status == Pending && s.kind == t.kind
  }

  predicate BothDone(s: Step, t: Step) {
    s.process == t.process && s.status == Completed && t.status == Completed && Slot(s.kind) == Slot(t.kind)
  }

  ghost predicate OneEach(steps: map<Id, Step>) {
    forall s, t | s in steps && t in steps && (BothPending(steps[s], steps[t]) || BothDone(steps[s], steps[t])) :: s == t
  }

  // ---------- the failure budget ----------

  function FailuresOf(steps: map<Id, Step>, id: Id, s: Id): nat {
    if s in steps && steps[s].process == id then steps[s].failures else 0
  }

  /** Failures over the steps of a process with an id below n. */
  function FailureSum(steps: map<Id, Step>, id: Id, n: nat): nat {
    if n == 0 then 0 else FailureSum(steps, id, n - 1) + FailuresOf(steps, id, n - 1)
  }

  ghost predicate Budget(procs: map<Id, Process>, steps: map<Id, Step>, supply: Id) {
    forall p | p in procs :: procs[p].failures == FailureSum(steps, p, supply)
  }

  lemma {:induction false} SumAgrees(a: map<Id, Step>, b: map<Id, Step>, id: Id, n: nat)
    requires forall s: Id | s < n :: FailuresOf(a, id, s) == FailuresOf(b, id, s)
    ensures FailureSum(a, id, n) == FailureSum(b, id, n)
  {
    if n > 0 {
      SumAgrees(a, b, id, n - 1);
    }
  }

  lemma {:induction false} SumExtends(steps: map<Id, Step>, id: Id, n: nat, m: nat)
    requires n <= m && StepKeysOk(steps, n)
    ensures FailureSum(steps, id, m) == FailureSum(steps, id, n)
  {
    if n < m {
      SumExtends(steps, id, n, m - 1);
    }
  }

  lemma {:induction false} SumCounts(a: map<Id, Step>, b: map<Id, Step>, id: Id, at: Id, n: nat)
    requires at < n && FailuresOf(b, id, at) == FailuresOf(a, id, at) + 1
    requires forall s: Id | s != at :: FailuresOf(a, id, s) == FailuresOf(b, id, s)
    ensures FailureSum(b, id, n) == FailureSum(a, id, n) + 1
  {
    if at == n - 1 {
      SumAgrees(a, b, id, n - 1);
    } else {
      SumCounts(a, b, id, at, n - 1);
    }
  }

  // ---------- stages ----------

  predicate HasSteps(steps: map<Id, Step>, id: Id) {
    exists s | s in steps :: steps[s].process == id
  }

  predicate Enrolled(p: Process, totp: map<Id, TotpFactor>) {
    p.account.Some? && p.account.value in totp
  }

  predicate SignUpStage(p: Process, done: set<Kind>, registered: bool, enrolled: bool) {
    && (forall k | k in done :: SignUpKind(k))
    && (Email in done ==> Registration in done)
    && (PasswordSetup in done ==> Email in done && p.status != Pending)
    && (registered <==> Registration in done && p.status != Completed)
    && (p.status == Completed ==> PasswordSetup in done)
    && (p.status == Completed && p.invalid.None? ==> !enrolled)
  }

  /** derived: a sensitive process completed by Start on earlier evidence, which has no steps of its own. */
  predicate FactorStage(p: Process, done: set<Kind>, derived: bool, registered: bool, enrolled: bool) {
    && !registered
    && (forall k | k in done :: !SignUpKind(k))
    && (HasSecond(done) ==> HasFirst(done))
    && (p.status == Pending ==> !HasSecond(done))
    && (p.purpose == SignIn ==> (p.account.Some? <==> HasFirst(done)))
    && (p.status == Pending && p.invalid.None? && HasFirst(done) ==> enrolled)
    && (p.status == Completed ==> HasFirst(done) || derived)
    && (p.status == Completed && p.invalid.None? && enrolled ==> HasSecond(done) || derived)
  }

  predicate Derived(p: Process, steps: map<Id, Step>, id: Id) {
    p.session.Some? && p.status == Completed && !HasSteps(steps, id)
  }

  predicate StageOk(id: Id, p: Process, steps: map<Id, Step>, signups: map<Id, Signup>, totp: map<Id, TotpFactor>) {
    var done := DoneKinds(steps, id);
    if p.purpose == SignUp then SignUpStage(p, done, id in signups, Enrolled(p, totp))
    else FactorStage(p, done, Derived(p, steps, id), id in signups, Enrolled(p, totp))
  }

  ghost predicate Stages(procs: map<Id, Process>, steps: map<Id, Step>, signups: map<Id, Signup>, totp: map<Id, TotpFactor>) {
    && signups.Keys <= procs.Keys
    && forall p | p in procs :: StageOk(p, procs[p], steps, signups, totp)
  }

  // ---------- all of it ----------

  /** The part about processes and steps. */
  ghost predicate Core(cfg: Config, db: DB, clock: Time) {
    && ProcsOk(cfg, db.procs, clock)
    && StepsOk(db.procs, db.steps, clock)
    && OneEach(db.steps)
    && Budget(db.procs, db.steps, db.supply)
    && Stages(db.procs, db.steps, db.signups, db.totp)
  }

  ghost predicate Inv(cfg: Config, db: DB, clock: Time) {
    Core(cfg, db, clock) && Keys(db)
  }
}
