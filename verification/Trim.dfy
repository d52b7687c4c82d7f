/** Two states that differ only by dead rows, and what they agree on. */
module Trimming {
  import opened Base
  import opened Secrets
  import opened Store
  import opened Processes
  import opened Cleanups
  import opened Invariant
  import opened QuietActions
  import opened FlowActions
  import opened KeyActions

  // ---------- dead rows ----------

  /** b lacks only sessions that have expired. */
  ghost predicate TrimSessions(a: map<Id, Session>, b: map<Id, Session>, now: Time) {
    && Within(b, a)
    && (forall s | s in a && s !in b :: a[s].expires < now)
  }

  /** b lacks only processes that no transaction will look at again: collectable ones, and those of a session b lacks. */
  ghost predicate TrimProcs(cfg: Config, a: map<Id, Process>, b: map<Id, Process>, sessions: set<Id>, supply: Id, now: Time) {
    && Within(b, a)
    && (forall p | p in a && p !in b :: DeadProcess(cfg, a[p], sessions, supply, now))
  }

  predicate DeadProcess(cfg: Config, p: Process, sessions: set<Id>, supply: Id, now: Time) {
    Collectable(p, now, cfg.reuseTTL) || Gone(p.session, sessions, supply)
  }

  /** A reference to a row that was there once: its number is drawn, so no later row can take it. */
  predicate Gone(parent: Option<Id>, keys: set<Id>, supply: Id) {
    parent.Some? && parent.value !in keys && parent.value < supply
  }

  /** Steps and registrations follow their process. */
  ghost predicate TrimSteps(a: map<Id, Step>, b: map<Id, Step>, procs: set<Id>) {
    && Within(b, a)
    && (forall s | s in a :: s in b <==> a[s].process in procs)
  }

  ghost predicate TrimSignups(a: map<Id, Signup>, b: map<Id, Signup>, procs: set<Id>) {
    && Within(b, a)
    && (forall r | r in a :: r in b <==> r in procs)
  }

  predicate DeadRequest(o: OAuthRequest, steps: set<Id>, sessions: set<Id>, supply: Id, now: Time) {
    o.expires < now || Gone(o.step, steps, supply) || Gone(o.session, sessions, supply)
  }

  ghost predicate TrimOAuth(a: map<Digest, OAuthRequest>, b: map<Digest, OAuthRequest>, steps: set<Id>, sessions: set<Id>, supply: Id, now: Time) {
    && Within(b, a)
    && (forall o | o in a && o !in b :: DeadRequest(a[o], steps, sessions, supply, now))
  }

  ghost predicate TrimChanges(a: map<Id, EmailChangeRequest>, b: map<Id, EmailChangeRequest>, now: Time) {
    && Within(b, a)
    && (forall c | c in a && c !in b :: a[c].expires < now)
  }

  ghost predicate TrimResets(a: map<Id, ResetRequest>, b: map<Id, ResetRequest>, now: Time) {
    && Within(b, a)
    && (forall r | r in a && r !in b :: a[r].expires < now)
  }

  ghost predicate TrimActivations(a: map<Id, Activation>, b: map<Id, Activation>, sessions: set<Id>, supply: Id, now: Time) {
    && Within(b, a)
    && (forall t | t in a && t !in b :: a[t].expires < now || Gone(Some(a[t].session), sessions, supply))
  }

  ghost predicate TrimPasskeyRequests(a: map<Id, PasskeyRequest>, b: map<Id, PasskeyRequest>, sessions: set<Id>, supply: Id, now: Time) {
    && Within(b, a)
    && (forall r | r in a && r !in b :: a[r].expires < now || Gone(Some(a[r].session), sessions, supply))
  }

  predicate SameShared(a: DB, b: DB) {
    && b.accounts == a.accounts && b.deletions == a.deletions && b.totp == a.totp && b.passkeys == a.passkeys
    && b.identities == a.identities && b.backups == a.backups && b.outbox == a.outbox && b.supply == a.supply
  }

  /** Steps and sessions have numbers of their own. */
  ghost predicate Drawn(db: DB) {
    Numbered(db.steps, db.supply) && Numbered(db.sessions, db.supply)
  }

  ghost predicate TrimFlows(cfg: Config, a: DB, b: DB, now: Time) {
    && TrimSessions(a.sessions, b.sessions, now)
    && TrimProcs(cfg, a.procs, b.procs, b.sessions.Keys, a.supply, now)
    && TrimSteps(a.steps, b.steps, b.procs.Keys)
    && TrimSignups(a.signups, b.signups, b.procs.Keys)
  }

  ghost predicate TrimRequests(a: DB, b: DB, now: Time) {
    && TrimOAuth(a.oauth, b.oauth, b.steps.Keys, b.sessions.Keys, a.supply, now)
    && TrimChanges(a.changes, b.changes, now)
    && TrimResets(a.resets, b.resets, now)
    && TrimActivations(a.activations, b.activations, b.sessions.Keys, a.supply, now)
    && TrimPasskeyRequests(a.passkeyRequests, b.passkeyRequests, b.sessions.Keys, a.supply, now)
  }

  /** b is a without some of its dead rows. */
  ghost predicate Trim(cfg: Config, a: DB, b: DB, now: Time) {
    Drawn(a) && SameShared(a, b) && TrimFlows(cfg, a, b, now) && TrimRequests(a, b, now)
  }

  lemma TrimItself(cfg: Config, a: DB, now: Time)
    requires Rooted(a) && Drawn(a)
    ensures Trim(cfg, a, a, now)
  {
  }

  // What is dead stays dead.
  lemma TrimLater(cfg: Config, a: DB, b: DB, now: Time, later: Time)
    requires Trim(cfg, a, b, now) && now <= later
    ensures Trim(cfg, a, b, later)
  {
    hide Within;
  }

  // ---------- what both states agree on ----------

  lemma SameSessions(cfg: Config, a: DB, b: DB, now: Time, who: Principal)
    requires Trim(cfg, a, b, now)
    ensures LiveSession(a, now, who) <==> LiveSession(b, now, who)
  {
    hide TrimRequests, TrimProcs, TrimSteps, TrimSignups;
  }

  lemma SamePrincipals(cfg: Config, a: DB, b: DB, now: Time, who: Principal, purpose: Purpose)
    requires Trim(cfg, a, b, now)
    ensures RecoveryPrincipal(a, now, who) <==> RecoveryPrincipal(b, now, who)
    ensures FullPrincipal(a, now, who) <==> FullPrincipal(b, now, who)
    ensures PurposePrincipal(a, now, who, purpose) <==> PurposePrincipal(b, now, who, purpose)
  {
    SameSessions(cfg, a, b, now, who);
    hide LiveSession, TrimFlows, TrimRequests;
  }

  lemma SameLoad(cfg: Config, a: DB, b: DB, now: Time, id: Id, flow: Id, who: Principal)
    requires Trim(cfg, a, b, now) && ProcsOk(cfg, a.procs, now)
    ensures Load(a, now, id, flow, who).Ok? <==> Load(b, now, id, flow, who).Ok?
    ensures Load(a, now, id, flow, who).Ok? ==> id in b.procs && Load(b, now, id, flow, who) == Load(a, now, id, flow, who)
  {
    if id in a.procs {
      SamePrincipals(cfg, a, b, now, who, a.procs[id].purpose);
      SameSessions(cfg, a, b, now, who);
      assert ProcOk(cfg, a.procs[id], now);
      if id !in b.procs {
        assert DeadProcess(cfg, a.procs[id], b.sessions.Keys, a.supply, now);
      }
    }
    hide TrimRequests, TrimSteps, TrimSignups, ProcsOk;
  }

  lemma SameNext(cfg: Config, a: DB, b: DB, now: Time, id: Id, p: Process)
    requires Trim(cfg, a, b, now) && id in b.procs
    ensures DoneKinds(a.steps, id) == DoneKinds(b.steps, id)
    ensures Next(cfg, a, id, p) == Next(cfg, b, id, p)
  {
    SameDone(a.steps, b.steps, b.procs.Keys, id);
    hide TrimRequests, DoneKinds, TrimProcs, TrimSessions, TrimSteps;
  }

  lemma SameDone(a: map<Id, Step>, b: map<Id, Step>, procs: set<Id>, id: Id)
    requires TrimSteps(a, b, procs) && id in procs
    ensures DoneKinds(a, id) == DoneKinds(b, id)
  {
    assert forall s | s in a && a[s].process == id :: s in b && b[s] == a[s];
  }

  // Evidence that could still count is never dead: it was completed with its last step at the latest.
  lemma DeadIsNoEvidence(cfg: Config, a: DB, b: DB, now: Time, q: Id, who: Principal)
    requires Trim(cfg, a, b, now) && StepsOk(a.procs, a.steps, now) && ProcsOk(cfg, a.procs, now) && LiveSession(a, now, who)
    requires q in a.procs && q !in b.procs
    ensures !Evidence(a, q, who.account, who.session, now - cfg.reuseTTL)
  {
    assert DeadProcess(cfg, a.procs[q], b.sessions.Keys, a.supply, now) && ProcOk(cfg, a.procs[q], now);
    assert who.session in b.sessions;
    assert forall s | s in a.steps && a.steps[s].process == q :: StepOk(a.steps[s], a.procs[q], now);
    hide Trim, ProcsOk, StepsOk, FreshSecond;
  }

  lemma SameEvidence(cfg: Config, a: DB, b: DB, now: Time, q: Id, account: Id, session: Id, after: Time)
    requires Trim(cfg, a, b, now) && q in b.procs
    ensures Evidence(a, q, account, session, after) <==> Evidence(b, q, account, session, after)
  {
    assert forall s | s in a.steps && a.steps[s].process == q :: s in b.steps && b.steps[s] == a.steps[s];
    assert forall s | s in b.steps && b.steps[s].process == q :: s in a.steps;
    hide TrimRequests, TrimSignups;
  }

  lemma ReusableKept(cfg: Config, a: DB, b: DB, now: Time, who: Principal)
    requires Trim(cfg, a, b, now) && StepsOk(a.procs, a.steps, now) && ProcsOk(cfg, a.procs, now) && LiveSession(a, now, who)
    requires Reusable(a, who.account, who.session, now - cfg.reuseTTL)
    ensures Reusable(b, who.account, who.session, now - cfg.reuseTTL)
  {
    var after := now - cfg.reuseTTL;
    var account, session := who.account, who.session;
    var q :| q in a.procs && Evidence(a, q, account, session, after);
    hide Evidence, StepsOk, ProcsOk, Trim, LiveSession;
    if q in b.procs {
      SameEvidence(cfg, a, b, now, q, account, session, after);
    } else {
      DeadIsNoEvidence(cfg, a, b, now, q, who);
    }
  }

  lemma ReusableBefore(cfg: Config, a: DB, b: DB, now: Time, account: Id, session: Id, after: Time)
    requires Trim(cfg, a, b, now) && Reusable(b, account, session, after)
    ensures Reusable(a, account, session, after)
  {
    var q :| q in b.procs && Evidence(b, q, account, session, after);
    SameEvidence(cfg, a, b, now, q, account, session, after);
    assert q in a.procs;
    hide Evidence, Trim;
  }

  lemma SameReusable(cfg: Config, a: DB, b: DB, now: Time, who: Principal)
    requires Trim(cfg, a, b, now) && StepsOk(a.procs, a.steps, now) && ProcsOk(cfg, a.procs, now) && LiveSession(a, now, who)
    ensures var after := now - cfg.reuseTTL; Reusable(a, who.account, who.session, after) <==> Reusable(b, who.account, who.session, after)
  {
    if Reusable(a, who.account, who.session, now - cfg.reuseTTL) {
      ReusableKept(cfg, a, b, now, who);
    }
    if Reusable(b, who.account, who.session, now - cfg.reuseTTL) {
      ReusableBefore(cfg, a, b, now, who.account, who.session, now - cfg.reuseTTL);
    }
    hide Reusable, StepsOk, ProcsOk, Trim;
  }

  lemma SameHolder(cfg: Config, a: DB, b: DB, now: Time, token: Id)
    requires Trim(cfg, a, b, now) && ProcKeysOk(a.procs, a.supply)
    ensures var h := Digest(GrantTag, 0, token);
      var p, q := ProcByGrant(a.procs, a.supply, h), ProcByGrant(b.procs, b.supply, h);
      (p.Some? && p.value in b.procs ==> q == p) && (p.None? || p.value !in b.procs ==> q.None?)
  {
    var h := Digest(GrantTag, 0, token);
    var p, q := ProcByGrant(a.procs, a.supply, h), ProcByGrant(b.procs, b.supply, h);
    if q.Some? {
      assert HoldsGrant(a.procs[q.value], h) && q.value < a.supply;
      assert p.Some? && SameGrant(a.procs[q.value], a.procs[p.value]);
    }
    hide TrimRequests, TrimSteps, TrimSignups, TrimSessions, ProcByGrant;
  }

  // ---------- changes that keep two states apart only by dead rows ----------

  lemma TrimRow(cfg: Config, a: DB, b: DB, now: Time, id: Id, q: Process)
    requires Trim(cfg, a, b, now) && id in b.procs
    ensures Trim(cfg, a.(procs := a.procs[id := q]), b.(procs := b.procs[id := q]), now)
  {
    assert b.procs[id := q].Keys == b.procs.Keys;
    hide TrimRequests, TrimSessions, TrimSteps, TrimSignups, SameShared;
    assert TrimProcs(cfg, a.procs[id := q], b.procs[id := q], b.sessions.Keys, a.supply, now);
    hide TrimProcs;
  }

  lemma TrimInvalidate(cfg: Config, a: DB, b: DB, account: Id, now: Time)
    requires Trim(cfg, a, b, now)
    ensures Trim(cfg, Invalidate(a, account, now), Invalidate(b, account, now), now)
  {
    var c, d := Invalidate(a, account, now), Invalidate(b, account, now);
    assert d.procs.Keys == b.procs.Keys;
    hide TrimRequests, TrimSessions, TrimSteps, TrimSignups, SameShared;
    assert TrimProcs(cfg, c.procs, d.procs, d.sessions.Keys, c.supply, now);
    hide TrimProcs;
  }

  // Dropping rows by their parents: before the steps follow, they may only lag behind.

  ghost predicate LooseSteps(a: map<Id, Step>, b: map<Id, Step>, procs: set<Id>) {
    Within(b, a) && (forall s | s in a && a[s].process in procs :: s in b)
  }

  ghost predicate LooseSignups(a: map<Id, Signup>, b: map<Id, Signup>, procs: set<Id>) {
    Within(b, a) && (forall r | r in a && r in procs :: r in b)
  }

  ghost predicate PreTrim(cfg: Config, a: DB, b: DB, now: Time) {
    && Drawn(a) && SameShared(a, b)
    && TrimSessions(a.sessions, b.sessions, now)
    && TrimProcs(cfg, a.procs, b.procs, b.sessions.Keys, a.supply, now)
    && LooseSteps(a.steps, b.steps, b.procs.Keys)
    && LooseSignups(a.signups, b.signups, b.procs.Keys)
    && TrimRequests(a, b, now)
  }

  lemma TrimIsPreTrim(cfg: Config, a: DB, b: DB, now: Time)
    requires Trim(cfg, a, b, now)
    ensures PreTrim(cfg, a, b, now)
  {
    hide TrimSessions, TrimProcs, TrimRequests, SameShared;
  }

  lemma CascadeTrimsFlows(cfg: Config, a: DB, b: DB, now: Time)
    requires PreTrim(cfg, a, b, now)
    ensures TrimFlows(cfg, CascadeProcesses(a), CascadeProcesses(b), now)
  {
    hide TrimRequests, SameShared, TrimSessions, TrimProcs, LooseSteps, LooseSignups;
    ProcsStay(cfg, a.procs, b.procs, b.sessions.Keys, a.supply, now);
    StepsFollow(a.steps, b.steps, a.procs.Keys, b.procs.Keys);
    SignupsFollow(a.signups, b.signups, a.procs.Keys, b.procs.Keys);
    CascadedFlows(a);
    CascadedFlows(b);
  }

  lemma ProcsStay(cfg: Config, a: map<Id, Process>, b: map<Id, Process>, sessions: set<Id>, supply: Id, now: Time)
    requires TrimProcs(cfg, a, b, sessions, supply, now)
    ensures b.Keys <= a.Keys
  {
  }

  function StepsIn(steps: map<Id, Step>, procs: set<Id>): map<Id, Step> {
    map s | s in steps && steps[s].process in procs :: steps[s]
  }

  function SignupsIn(signups: map<Id, Signup>, procs: set<Id>): map<Id, Signup> {
    map r | r in signups && r in procs :: signups[r]
  }

  lemma CascadedFlows(db: DB)
    ensures var c := CascadeProcesses(db);
      && c.sessions == db.sessions && c.procs == db.procs && c.supply == db.supply
      && c.steps == StepsIn(db.steps, db.procs.Keys) && c.signups == SignupsIn(db.signups, db.procs.Keys)
  {
  }

  lemma StepsFollow(a: map<Id, Step>, b: map<Id, Step>, procs: set<Id>, procs': set<Id>)
    requires LooseSteps(a, b, procs') && procs' <= procs
    ensures TrimSteps(StepsIn(a, procs), StepsIn(b, procs'), procs')
  {
  }

  lemma SignupsFollow(a: map<Id, Signup>, b: map<Id, Signup>, procs: set<Id>, procs': set<Id>)
    requires LooseSignups(a, b, procs') && procs' <= procs
    ensures TrimSignups(SignupsIn(a, procs), SignupsIn(b, procs'), procs')
  {
  }

  lemma CascadeTrimsOAuth(cfg: Config, a: DB, b: DB, now: Time)
    requires Numbered(a.steps, a.supply) && Within(b.steps, a.steps) && TrimOAuth(a.oauth, b.oauth, b.steps.Keys, b.sessions.Keys, a.supply, now)
    requires forall p | p in b.procs :: p in a.procs
    ensures var c, d := CascadeProcesses(a), CascadeProcesses(b); TrimOAuth(c.oauth, d.oauth, d.steps.Keys, d.sessions.Keys, c.supply, now)
  {
  }

  lemma CascadeTrimsRequests(cfg: Config, a: DB, b: DB, now: Time)
    requires PreTrim(cfg, a, b, now)
    ensures TrimRequests(CascadeProcesses(a), CascadeProcesses(b), now)
  {
    assert forall p | p in b.procs :: p in a.procs;
    CascadeTrimsOAuth(cfg, a, b, now);
    hide TrimProcs, TrimSessions, LooseSignups, TrimChanges, TrimResets, TrimActivations, TrimPasskeyRequests, TrimOAuth;
  }

  lemma CascadeTrims(cfg: Config, a: DB, b: DB, now: Time)
    requires PreTrim(cfg, a, b, now)
    ensures Trim(cfg, CascadeProcesses(a), CascadeProcesses(b), now)
  {
    CascadeTrimsFlows(cfg, a, b, now);
    CascadeTrimsRequests(cfg, a, b, now);
    assert Drawn(CascadeProcesses(a));
    hide Drawn, TrimFlows, TrimRequests, TrimSessions, TrimProcs, LooseSteps, LooseSignups;
  }

  /** Both states lose sessions, and still differ by expired ones only. */
  ghost predicate SessionsLost(a: DB, b: DB, sa: map<Id, Session>, sb: map<Id, Session>, now: Time) {
    Within(sa, a.sessions) && Within(sb, b.sessions) && TrimSessions(sa, sb, now)
  }

  lemma OrphansTrimFlows(cfg: Config, a: DB, b: DB, sa: map<Id, Session>, sb: map<Id, Session>, now: Time)
    requires PreTrim(cfg, a, b, now) && SessionsLost(a, b, sa, sb, now)
    ensures var c, d := WithoutSessionOrphans(a.(sessions := sa)), WithoutSessionOrphans(b.(sessions := sb));
      && TrimProcs(cfg, c.procs, d.procs, d.sessions.Keys, c.supply, now)
      && LooseSteps(c.steps, d.steps, d.procs.Keys) && LooseSignups(c.signups, d.signups, d.procs.Keys)
  {
    hide TrimRequests, SameShared;
  }

  lemma OrphansTrimOAuth(a: DB, b: DB, sa: map<Id, Session>, sb: map<Id, Session>, now: Time)
    requires Numbered(a.sessions, a.supply) && SessionsLost(a, b, sa, sb, now) && TrimOAuth(a.oauth, b.oauth, b.steps.Keys, b.sessions.Keys, a.supply, now)
    ensures var c, d := WithoutSessionOrphans(a.(sessions := sa)), WithoutSessionOrphans(b.(sessions := sb));
      TrimOAuth(c.oauth, d.oauth, d.steps.Keys, d.sessions.Keys, c.supply, now)
  {
  }

  lemma OrphansTrimActivations(a: DB, b: DB, sa: map<Id, Session>, sb: map<Id, Session>, now: Time)
    requires Numbered(a.sessions, a.supply) && SessionsLost(a, b, sa, sb, now)
    requires TrimActivations(a.activations, b.activations, b.sessions.Keys, a.supply, now)
    ensures var c, d := WithoutSessionOrphans(a.(sessions := sa)), WithoutSessionOrphans(b.(sessions := sb));
      TrimActivations(c.activations, d.activations, d.sessions.Keys, c.supply, now)
  {
  }

  lemma OrphansTrimPasskeyRequests(a: DB, b: DB, sa: map<Id, Session>, sb: map<Id, Session>, now: Time)
    requires Numbered(a.sessions, a.supply) && SessionsLost(a, b, sa, sb, now)
    requires TrimPasskeyRequests(a.passkeyRequests, b.passkeyRequests, b.sessions.Keys, a.supply, now)
    ensures var c, d := WithoutSessionOrphans(a.(sessions := sa)), WithoutSessionOrphans(b.(sessions := sb));
      TrimPasskeyRequests(c.passkeyRequests, d.passkeyRequests, d.sessions.Keys, c.supply, now)
  {
  }

  lemma OrphansTrimRequests(cfg: Config, a: DB, b: DB, sa: map<Id, Session>, sb: map<Id, Session>, now: Time)
    requires PreTrim(cfg, a, b, now) && SessionsLost(a, b, sa, sb, now)
    ensures TrimRequests(WithoutSessionOrphans(a.(sessions := sa)), WithoutSessionOrphans(b.(sessions := sb)), now)
  {
    OrphansTrimOAuth(a, b, sa, sb, now);
    OrphansTrimActivations(a, b, sa, sb, now);
    OrphansTrimPasskeyRequests(a, b, sa, sb, now);
    hide TrimProcs, TrimSessions, LooseSteps, LooseSignups, SameShared, SessionsLost;
    hide TrimChanges, TrimResets, TrimActivations, TrimPasskeyRequests, TrimOAuth;
  }

  lemma TrimLosesSessions(cfg: Config, a: DB, b: DB, sa: map<Id, Session>, sb: map<Id, Session>, now: Time)
    requires PreTrim(cfg, a, b, now) && SessionsLost(a, b, sa, sb, now)
    ensures Trim(cfg, CascadeSessions(a.(sessions := sa)), CascadeSessions(b.(sessions := sb)), now)
  {
    OrphansTrimFlows(cfg, a, b, sa, sb, now);
    OrphansTrimRequests(cfg, a, b, sa, sb, now);
    var c, d := WithoutSessionOrphans(a.(sessions := sa)), WithoutSessionOrphans(b.(sessions := sb));
    assert Drawn(c) && SameShared(c, d) && TrimSessions(c.sessions, d.sessions, now);
    hide TrimProcs, LooseSteps, LooseSignups, TrimRequests, SameShared, TrimSessions, WithoutSessionOrphans, Drawn;
    CascadeTrims(cfg, c, d, now);
    hide CascadeProcesses, Trim;
  }

  lemma TrimDropSessions(cfg: Config, a: DB, b: DB, ga: set<Id>, gb: set<Id>, now: Time)
    requires Trim(cfg, a, b, now) && (forall s | s in b.sessions :: s in ga <==> s in gb)
    ensures Trim(cfg, DropSessions(a, ga), DropSessions(b, gb), now)
  {
    var sa := map s | s in a.sessions && s !in ga :: a.sessions[s];
    var sb := map s | s in b.sessions && s !in gb :: b.sessions[s];
    TrimIsPreTrim(cfg, a, b, now);
    assert SessionsLost(a, b, sa, sb, now);
    hide SessionsLost, Trim, PreTrim, CascadeSessions;
    TrimLosesSessions(cfg, a, b, sa, sb, now);
  }

  // ---------- losing an account ----------

  lemma AccountOrphansTrimFlows(cfg: Config, a: DB, b: DB, now: Time)
    requires Trim(cfg, a, b, now)
    ensures var c, d := WithoutAccountOrphans(a), WithoutAccountOrphans(b);
      && TrimProcs(cfg, c.procs, d.procs, b.sessions.Keys, a.supply, now)
      && LooseSteps(c.steps, d.steps, d.procs.Keys) && LooseSignups(c.signups, d.signups, d.procs.Keys)
  {
    hide TrimRequests, TrimSessions;
  }

  lemma AccountOrphansTrimRest(cfg: Config, a: DB, b: DB, now: Time)
    requires Trim(cfg, a, b, now)
    ensures var c, d := WithoutAccountOrphans(a), WithoutAccountOrphans(b);
      && SameShared(c, d)
      && TrimChanges(c.changes, d.changes, now) && TrimResets(c.resets, d.resets, now)
      && TrimActivations(c.activations, d.activations, b.sessions.Keys, a.supply, now)
  {
    hide TrimFlows, TrimOAuth, TrimPasskeyRequests;
  }

  lemma AccountOrphansTrim(cfg: Config, a: DB, b: DB, now: Time)
    requires Trim(cfg, a, b, now)
    ensures PreTrim(cfg, WithoutAccountOrphans(a).(sessions := a.sessions), WithoutAccountOrphans(b).(sessions := b.sessions), now)
  {
    AccountOrphansTrimFlows(cfg, a, b, now);
    AccountOrphansTrimRest(cfg, a, b, now);
    assert Drawn(WithoutAccountOrphans(a).(sessions := a.sessions));
    hide Drawn, TrimSessions, TrimProcs, LooseSteps, LooseSignups, TrimSteps, TrimSignups;
    hide TrimChanges, TrimResets, TrimActivations, TrimPasskeyRequests, TrimOAuth;
  }

  lemma AccountSessionsLost(cfg: Config, a: DB, b: DB, now: Time)
    requires Trim(cfg, a, b, now)
    ensures SessionsLost(a, b, WithoutAccountOrphans(a).sessions, WithoutAccountOrphans(b).sessions, now)
  {
    hide TrimRequests, TrimProcs, TrimSteps, TrimSignups;
  }

  lemma TrimCascadeAccounts(cfg: Config, a: DB, b: DB, now: Time)
    requires Trim(cfg, a, b, now)
    ensures Trim(cfg, CascadeAccounts(a), CascadeAccounts(b), now)
  {
    AccountOrphansTrim(cfg, a, b, now);
    AccountSessionsLost(cfg, a, b, now);
    var c, d := WithoutAccountOrphans(a), WithoutAccountOrphans(b);
    hide Trim, PreTrim, CascadeSessions, WithoutAccountOrphans;
    var c', d' := c.(sessions := a.sessions), d.(sessions := b.sessions);
    assert SessionsLost(c', d', c.sessions, d.sessions, now);
    TrimLosesSessions(cfg, c', d', c.sessions, d.sessions, now);
    assert c'.(sessions := c.sessions) == c && d'.(sessions := d.sessions) == d;
    hide SessionsLost;
  }

  lemma TrimDropAccount(cfg: Config, a: DB, b: DB, account: Id, now: Time)
    requires Trim(cfg, a, b, now)
    ensures Trim(cfg, DropAccount(a, account), DropAccount(b, account), now)
  {
    var c, d := a.(accounts := a.accounts - {account}), b.(accounts := b.accounts - {account});
    assert Trim(cfg, c, d, now) by {
      hide TrimSessions, TrimProcs, TrimSteps, TrimSignups, TrimRequests;
    }
    hide Trim, CascadeAccounts;
    TrimCascadeAccounts(cfg, c, d, now);
  }

  // ---------- changes of one table in both states ----------

  /** db with the shared tables of s. */
  function WithShared(db: DB, s: DB): DB {
    db.(accounts := s.accounts, deletions := s.deletions, totp := s.totp, passkeys := s.passkeys, identities := s.identities,
        backups := s.backups, outbox := s.outbox, supply := s.supply)
  }

  lemma TrimShared(cfg: Config, a: DB, b: DB, s: DB, now: Time)
    requires Trim(cfg, a, b, now) && a.supply <= s.supply
    ensures Trim(cfg, WithShared(a, s), WithShared(b, s), now)
  {
    var c, d := WithShared(a, s), WithShared(b, s);
    assert Drawn(c) && SameShared(c, d);
    assert TrimFlows(cfg, c, d, now) by { hide TrimRequests; }
    assert TrimRequests(c, d, now) by { hide TrimFlows; }
    hide *;
    SharedTrims(cfg, c, d, now);
  }

  lemma SharedTrims(cfg: Config, c: DB, d: DB, now: Time)
    requires Drawn(c) && SameShared(c, d) && TrimFlows(cfg, c, d, now) && TrimRequests(c, d, now)
    ensures Trim(cfg, c, d, now)
  {
  }

  // The usual end of a transaction: the shared tables of both states change alike.
  lemma TrimSharedChange(cfg: Config, a: DB, b: DB, c: DB, d: DB, now: Time)
    requires Trim(cfg, a, b, now) && a.supply <= c.supply && c == WithShared(a, c) && d == WithShared(b, c)
    ensures Trim(cfg, c, d, now)
  {
    TrimShared(cfg, a, b, c, now);
  }

  lemma TrimResetRow(cfg: Config, a: DB, b: DB, now: Time, x: Id, row: ResetRequest)
    requires Trim(cfg, a, b, now)
    ensures Trim(cfg, a.(resets := a.resets[x := row]), b.(resets := b.resets[x := row]), now)
    ensures Trim(cfg, a.(resets := a.resets - {x}), b.(resets := b.resets - {x}), now)
  {
    hide TrimSessions, TrimProcs, TrimSteps, TrimSignups, TrimOAuth, TrimChanges, TrimActivations, TrimPasskeyRequests;
  }

  lemma TrimChangeRow(cfg: Config, a: DB, b: DB, now: Time, x: Id, row: EmailChangeRequest)
    requires Trim(cfg, a, b, now)
    ensures Trim(cfg, a.(changes := a.changes[x := row]), b.(changes := b.changes[x := row]), now)
    ensures Trim(cfg, a.(changes := a.changes - {x}), b.(changes := b.changes - {x}), now)
  {
    hide TrimSessions, TrimProcs, TrimSteps, TrimSignups, TrimOAuth, TrimResets, TrimActivations, TrimPasskeyRequests;
  }

  lemma TrimActivationRow(cfg: Config, a: DB, b: DB, now: Time, x: Id, row: Activation)
    requires Trim(cfg, a, b, now)
    ensures Trim(cfg, a.(activations := a.activations[x := row]), b.(activations := b.activations[x := row]), now)
    ensures Trim(cfg, a.(activations := a.activations - {x}), b.(activations := b.activations - {x}), now)
  {
    hide TrimSessions, TrimProcs, TrimSteps, TrimSignups, TrimOAuth, TrimResets, TrimChanges, TrimPasskeyRequests;
  }

  lemma TrimPasskeyRow(cfg: Config, a: DB, b: DB, now: Time, x: Id, row: PasskeyRequest)
    requires Trim(cfg, a, b, now)
    ensures Trim(cfg, a.(passkeyRequests := a.passkeyRequests[x := row]), b.(passkeyRequests := b.passkeyRequests[x := row]), now)
    ensures Trim(cfg, a.(passkeyRequests := a.passkeyRequests - {x}), b.(passkeyRequests := b.passkeyRequests - {x}), now)
  {
    hide TrimSessions, TrimProcs, TrimSteps, TrimSignups, TrimOAuth, TrimResets, TrimChanges, TrimActivations;
  }

  lemma TrimOAuthRow(cfg: Config, a: DB, b: DB, now: Time, x: Digest, row: OAuthRequest)
    requires Trim(cfg, a, b, now)
    ensures Trim(cfg, a.(oauth := a.oauth[x := row]), b.(oauth := b.oauth[x := row]), now)
    ensures Trim(cfg, a.(oauth := a.oauth - {x}), b.(oauth := b.oauth - {x}), now)
  {
    hide TrimSessions, TrimProcs, TrimSteps, TrimSignups, TrimActivations, TrimResets, TrimChanges, TrimPasskeyRequests;
  }

  lemma SignupsTrim(a: map<Id, Signup>, b: map<Id, Signup>, procs: set<Id>, id: Id, row: Signup)
    requires TrimSignups(a, b, procs) && id in procs
    ensures TrimSignups(a[id := row], b[id := row], procs) && TrimSignups(a - {id}, b - {id}, procs)
  {
  }

  lemma TrimSignupsMove(cfg: Config, a: DB, b: DB, now: Time, sa: map<Id, Signup>, sb: map<Id, Signup>)
    requires Trim(cfg, a, b, now) && TrimSignups(sa, sb, b.procs.Keys)
    ensures Trim(cfg, a.(signups := sa), b.(signups := sb), now)
  {
    hide TrimSessions, TrimProcs, TrimSteps, TrimSignups, TrimOAuth, TrimActivations, TrimResets, TrimChanges, TrimPasskeyRequests;
  }

  lemma TrimSignupRow(cfg: Config, a: DB, b: DB, now: Time, id: Id, row: Signup)
    requires Trim(cfg, a, b, now) && id in b.procs
    ensures Trim(cfg, a.(signups := a.signups[id := row]), b.(signups := b.signups[id := row]), now)
    ensures Trim(cfg, a.(signups := a.signups - {id}), b.(signups := b.signups - {id}), now)
  {
    assert TrimSignups(a.signups, b.signups, b.procs.Keys);
    SignupsTrim(a.signups, b.signups, b.procs.Keys, id, row);
    hide Trim, TrimSignups;
    TrimSignupsMove(cfg, a, b, now, a.signups[id := row], b.signups[id := row]);
    TrimSignupsMove(cfg, a, b, now, a.signups - {id}, b.signups - {id});
  }

  // A session is rotated, or opened under a number not drawn before.
  lemma SessionPutFlows(cfg: Config, a: DB, b: DB, now: Time, s: Id, row: Session, n: Id)
    requires Trim(cfg, a, b, now) && (s in b.sessions || a.supply <= s) && s < n && a.supply <= n
    ensures TrimFlows(cfg, a.(sessions := a.sessions[s := row], supply := n), b.(sessions := b.sessions[s := row], supply := n), now)
  {
    hide TrimSteps, TrimSignups, TrimRequests, SameShared;
  }

  lemma SessionPutRequests(cfg: Config, a: DB, b: DB, now: Time, s: Id, row: Session, n: Id)
    requires Trim(cfg, a, b, now) && (s in b.sessions || a.supply <= s) && s < n && a.supply <= n
    ensures TrimRequests(a.(sessions := a.sessions[s := row], supply := n), b.(sessions := b.sessions[s := row], supply := n), now)
  {
    hide TrimFlows, TrimChanges, TrimResets, SameShared;
  }

  lemma TrimSessionPut(cfg: Config, a: DB, b: DB, now: Time, s: Id, row: Session, n: Id)
    requires Trim(cfg, a, b, now) && (s in b.sessions || a.supply <= s) && s < n && a.supply <= n
    ensures Trim(cfg, a.(sessions := a.sessions[s := row], supply := n), b.(sessions := b.sessions[s := row], supply := n), now)
  {
    SessionPutFlows(cfg, a, b, now, s, row, n);
    SessionPutRequests(cfg, a, b, now, s, row, n);
    assert Drawn(a.(sessions := a.sessions[s := row], supply := n));
    hide TrimFlows, TrimRequests, Drawn;
  }

  lemma TrimProcsMove(cfg: Config, a: DB, b: DB, now: Time, pa: map<Id, Process>, pb: map<Id, Process>, n: Id)
    requires Trim(cfg, a, b, now) && a.supply <= n && TrimProcs(cfg, pa, pb, b.sessions.Keys, n, now)
    requires TrimSteps(a.steps, b.steps, pb.Keys) && TrimSignups(a.signups, b.signups, pb.Keys)
    ensures Trim(cfg, a.(procs := pa, supply := n), b.(procs := pb, supply := n), now)
  {
    var c, d := a.(procs := pa, supply := n), b.(procs := pb, supply := n);
    assert TrimRequests(c, d, now) by { hide TrimFlows; }
    assert Drawn(c) && SameShared(c, d);
    hide TrimRequests, Drawn, SameShared, TrimSessions, TrimProcs, TrimSteps, TrimSignups;
  }

  lemma TrimNewProcess(cfg: Config, a: DB, b: DB, now: Time, p: Process, n: Id)
    requires Trim(cfg, a, b, now) && Unborn(a.steps, a.signups, a.supply) && a.supply !in a.procs && a.supply < n
    ensures var id := a.supply; Trim(cfg, a.(procs := a.procs[id := p], supply := n), b.(procs := b.procs[id := p], supply := n), now)
  {
    var id := a.supply;
    var pa, pb := a.procs[id := p], b.procs[id := p];
    assert TrimProcs(cfg, pa, pb, b.sessions.Keys, n, now) by { hide TrimRequests, TrimSessions, TrimSteps, TrimSignups; }
    assert TrimSteps(a.steps, b.steps, pb.Keys) && TrimSignups(a.signups, b.signups, pb.Keys) by {
      hide TrimRequests, TrimSessions, TrimProcs;
    }
    hide Trim, TrimProcs, TrimSteps, TrimSignups;
    TrimProcsMove(cfg, a, b, now, pa, pb, n);
  }

  /** The steps of both states changed alike: new ones have numbers not drawn before. */
  ghost predicate StepsMove(a: DB, b: DB, sa: map<Id, Step>, sb: map<Id, Step>, n: Id) {
    && TrimSteps(sa, sb, b.procs.Keys) && Numbered(sa, n) && a.supply <= n
    && (forall s | s in sb :: s in b.steps || a.supply <= s)
  }

  lemma TrimStepsMove(cfg: Config, a: DB, b: DB, now: Time, sa: map<Id, Step>, sb: map<Id, Step>, n: Id)
    requires Trim(cfg, a, b, now) && StepsMove(a, b, sa, sb, n)
    ensures Trim(cfg, a.(steps := sa, supply := n), b.(steps := sb, supply := n), now)
  {
    var c, d := a.(steps := sa, supply := n), b.(steps := sb, supply := n);
    assert TrimFlows(cfg, c, d, now) by { hide TrimRequests, TrimSignups, TrimSessions; }
    assert TrimRequests(c, d, now) by { hide TrimFlows, TrimChanges, TrimResets; }
    assert Drawn(c) && SameShared(c, d);
    hide TrimFlows, TrimRequests, Drawn, SameShared, StepsMove;
  }
}
