/** Transactions cannot tell two states apart that differ by dead rows. */
module Similarity {
  import opened Base
  import opened Secrets
  import opened Store
  import opened Answers
  import opened Processes
  import opened Invariant
  import opened Trimming
  import opened Links

  /** Both commit with the same answer, in states that still differ by dead rows only, or both roll back. */
  ghost predicate Similar(cfg: Config, r: Outcome, t: Outcome, now: Time) {
    && (r.Ok? <==> t.Ok?)
    && (r.Ok? ==> t.value.answer == r.value.answer && Trim(cfg, r.value.db, t.value.db, now))
  }

  /** The pair of states at the start of a transaction. */
  ghost predicate Pair(cfg: Config, a: DB, b: DB, now: Time) {
    Trim(cfg, a, b, now) && Inv(cfg, a, now) && Inv(cfg, b, now) && Linked(b)
  }

  lemma PairFacts(cfg: Config, a: DB, b: DB, now: Time)
    requires Pair(cfg, a, b, now)
    ensures SameShared(a, b) && ProcsOk(cfg, a.procs, now) && StepsOk(a.procs, a.steps, now) && Trim(cfg, a, b, now)
    ensures ProcKeysOk(a.procs, a.supply) && StepKeysOk(a.steps, a.supply)
  {
    hide TrimFlows, TrimRequests, Stages, Budget, OneEach, Linked;
  }

  // ---------- spending a grant ----------

  ghost predicate SimilarSpent(cfg: Config, r: Result<Spent>, t: Result<Spent>, now: Time) {
    && (r.Ok? <==> t.Ok?)
    && (r.Ok? ==> t.value.process == r.value.process && t.value.account == r.value.account && Trim(cfg, r.value.db, t.value.db, now))
  }

  // The holder of a live grant is never dead.
  lemma SpendableIsAlive(cfg: Config, p: Process, purpose: Purpose, session: Id, sessions: set<Id>, supply: Id, now: Time)
    requires ProcOk(cfg, p, now) && Spendable(p, purpose, now)
    requires Sensitive(purpose) ==> p.session == Some(session) && session in sessions
    ensures !DeadProcess(cfg, p, sessions, supply, now)
  {
  }

  lemma SpendableIsKept(cfg: Config, a: DB, b: DB, now: Time, token: Id, purpose: Purpose, who: Principal)
    requires Trim(cfg, a, b, now) && ProcsOk(cfg, a.procs, now) && ConsumeGrant(a, now, token, purpose, who).Ok?
    ensures ConsumeGrant(a, now, token, purpose, who).value.process in b.procs
  {
    SamePrincipals(cfg, a, b, now, who, purpose);
    var id := ConsumeGrant(a, now, token, purpose, who).value.process;
    hide ConsumeGrant;
    assert id in b.procs || DeadProcess(cfg, a.procs[id], b.sessions.Keys, a.supply, now);
    hide Trim;
    SpendableIsAlive(cfg, a.procs[id], purpose, if who.Bearer? then who.session else 0, b.sessions.Keys, a.supply, now);
    hide ProcsOk, Spendable, DeadProcess;
  }

  lemma SameRow(cfg: Config, a: DB, b: DB, now: Time, id: Id)
    requires Trim(cfg, a, b, now) && id in b.procs
    ensures id in a.procs && b.procs[id] == a.procs[id] && b.accounts == a.accounts
  {
    hide TrimRequests, TrimSteps, TrimSignups, TrimSessions;
  }

  // Two states that agree on the holder decide alike, and clear the same grant.
  lemma SpendAlike(a: DB, b: DB, now: Time, token: Id, purpose: Purpose, who: Principal, id: Id)
    requires ProcByGrant(a.procs, a.supply, Digest(GrantTag, 0, token)) == Some(id)
    requires ProcByGrant(b.procs, b.supply, Digest(GrantTag, 0, token)) == Some(id)
    requires id in a.procs && id in b.procs && b.procs[id] == a.procs[id] && b.accounts == a.accounts
    requires PurposePrincipal(a, now, who, purpose) <==> PurposePrincipal(b, now, who, purpose)
    ensures var r, t := ConsumeGrant(a, now, token, purpose, who), ConsumeGrant(b, now, token, purpose, who);
      && (r.Ok? <==> t.Ok?)
      && (r.Ok? ==> t.value.process == r.value.process == id && t.value.account == r.value.account)
  {
    hide PurposePrincipal, ProcByGrant;
  }

  lemma SpendSimilar(cfg: Config, a: DB, b: DB, now: Time, token: Id, purpose: Purpose, who: Principal)
    requires Pair(cfg, a, b, now)
    ensures SimilarSpent(cfg, ConsumeGrant(a, now, token, purpose, who), ConsumeGrant(b, now, token, purpose, who), now)
  {
    hide *;
    PairFacts(cfg, a, b, now);
    SameHolder(cfg, a, b, now, token);
    SamePrincipals(cfg, a, b, now, who, purpose);
    var found := ProcByGrant(a.procs, a.supply, Digest(GrantTag, 0, token));
    if found.Some? && found.value in b.procs {
      SpendThere(cfg, a, b, now, token, purpose, who, found.value);
    } else {
      if ConsumeGrant(a, now, token, purpose, who).Ok? {
        SpendableIsKept(cfg, a, b, now, token, purpose, who);
      }
      SpendNowhere(cfg, a, b, now, token, purpose, who);
    }
  }

  lemma SpendNowhere(cfg: Config, a: DB, b: DB, now: Time, token: Id, purpose: Purpose, who: Principal)
    requires ProcByGrant(b.procs, b.supply, Digest(GrantTag, 0, token)).None?
    requires var found := ProcByGrant(a.procs, a.supply, Digest(GrantTag, 0, token)); found.Some? ==> found.value !in b.procs
    requires var r := ConsumeGrant(a, now, token, purpose, who); r.Ok? ==> r.value.process in b.procs
    ensures SimilarSpent(cfg, ConsumeGrant(a, now, token, purpose, who), ConsumeGrant(b, now, token, purpose, who), now)
  {
    hide Trim, ProcByGrant, PurposePrincipal;
  }

  lemma SpendThere(cfg: Config, a: DB, b: DB, now: Time, token: Id, purpose: Purpose, who: Principal, id: Id)
    requires Trim(cfg, a, b, now) && id in a.procs && id in b.procs
    requires ProcByGrant(a.procs, a.supply, Digest(GrantTag, 0, token)) == Some(id)
    requires ProcByGrant(b.procs, b.supply, Digest(GrantTag, 0, token)) == Some(id)
    requires PurposePrincipal(a, now, who, purpose) <==> PurposePrincipal(b, now, who, purpose)
    ensures SimilarSpent(cfg, ConsumeGrant(a, now, token, purpose, who), ConsumeGrant(b, now, token, purpose, who), now)
  {
    hide Trim, ProcByGrant, PurposePrincipal, LiveSession;
    SameRow(cfg, a, b, now, id);
    SpendAlike(a, b, now, token, purpose, who, id);
    TrimRow(cfg, a, b, now, id, a.procs[id].(grant := None));
  }

  // ---------- transactions that change shared tables only ----------

  /** Both commit with the same answer, having made the same change to the shared tables, or both roll back. */
  predicate Alike(a: DB, b: DB, r: Outcome, t: Outcome) {
    && (r.Ok? <==> t.Ok?)
    && (r.Ok? ==> t.value.answer == r.value.answer && a.supply <= r.value.db.supply
                  && r.value.db == WithShared(a, r.value.db) && t.value.db == WithShared(b, r.value.db))
  }

  lemma AlikeSimilar(cfg: Config, a: DB, b: DB, r: Outcome, t: Outcome, now: Time)
    requires Trim(cfg, a, b, now) && Alike(a, b, r, t)
    ensures Similar(cfg, r, t, now)
  {
    hide Trim;
    if r.Ok? {
      TrimSharedChange(cfg, a, b, r.value.db, t.value.db, now);
    }
  }

  /** What both states of a pair show of the caller and of the shared tables. */
  predicate SameView(a: DB, b: DB, now: Time, who: Principal) {
    && SameShared(a, b)
    && (LiveSession(a, now, who) <==> LiveSession(b, now, who))
    && (RecoveryPrincipal(a, now, who) <==> RecoveryPrincipal(b, now, who))
    && (FullPrincipal(a, now, who) <==> FullPrincipal(b, now, who))
  }

  lemma PairView(cfg: Config, a: DB, b: DB, now: Time, who: Principal)
    requires Pair(cfg, a, b, now)
    ensures SameView(a, b, now, who) && Trim(cfg, a, b, now)
  {
    SameSessions(cfg, a, b, now, who);
    SamePrincipals(cfg, a, b, now, who, SignIn);
    PairFacts(cfg, a, b, now);
    hide Trim, Inv, LiveSession, RecoveryPrincipal, FullPrincipal, SameShared;
  }

  // ---------- authorization requests ----------

  lemma PairOAuth(cfg: Config, a: DB, b: DB, now: Time)
    requires Pair(cfg, a, b, now)
    ensures Trim(cfg, a, b, now) && OAuthOk(a.oauth, a.supply)
  {
    hide Trim, Core, Linked;
  }

  lemma SameLiveRequest(cfg: Config, a: DB, b: DB, now: Time, key: Digest)
    requires Trim(cfg, a, b, now)
    ensures key in b.oauth ==> key in a.oauth && b.oauth[key] == a.oauth[key]
    ensures key in a.oauth && key !in b.oauth ==> DeadRequest(a.oauth[key], b.steps.Keys, b.sessions.Keys, a.supply, now)
  {
    hide TrimFlows, TrimChanges, TrimResets, TrimActivations, TrimPasskeyRequests, DeadRequest;
  }
}
