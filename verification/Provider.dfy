/** What the transactions of a provider attempt hand to one another: a state that is spent once, and a step that stays the same. */
module ProviderAttempts {
  import opened Base
  import opened Secrets
  import opened Store
  import opened Processes
  import opened Challenges
  import opened OAuth
  import opened Protocol
  import opened Invariant
  import opened KeyActions
  import opened Reachability
  import opened Evolution

  // ---------- the authorization state is spent once ----------

  /** The state was drawn, and no request waits under it. */
  ghost predicate StateDead(db: DB, state: Id) {
    state < db.supply && Digest(StateTag, 0, state) !in db.oauth
  }

  lemma DeadStateStaysDead(a: DB, b: DB, state: Id)
    requires StateDead(a, state) && StatesDrawn(a, b)
    ensures StateDead(b, state)
  {
  }

  lemma {:induction false} DeadStateOverRun(cfg: Config, db: DB, clock: Time, run: seq<Call>, now: Time, state: Id)
    requires Inv(cfg, db, clock) && Follows(clock, run, now) && StateDead(db, state)
    ensures StateDead(RunFrom(cfg, db, run), state)
    decreases |run|
  {
    hide Inv, Apply, StateDead, StatesDrawn;
    if run != [] {
      var n := |run| - 1;
      var d := RunFrom(cfg, db, run[..n]);
      FollowsPrefix(clock, run, now);
      DeadStateOverRun(cfg, db, clock, run[..n], run[n].now, state);
      InvThroughout(cfg, db, clock, run[..n], run[n].now);
      InvOAuth(cfg, d, run[n].now);
      StatesMove(cfg, d, run[n]);
      DeadStateStaysDead(d, Apply(cfg, d, run[n]).db, state);
    }
  }

  lemma InvOAuth(cfg: Config, db: DB, clock: Time)
    requires Inv(cfg, db, clock)
    ensures OAuthOk(db.oauth, db.supply)
  {
    hide Core, OAuthOk;
  }

  /** The call commits by spending the state. */
  ghost predicate UsesState(cfg: Config, db: DB, call: Call, state: Id) {
    && Transact(cfg, db, call.now, call.action).Ok?
    && ((call.action.BeginProvider? && call.action.token == AuthorizationCode(state))
        || (call.action.BeginLink? && call.action.state == state))
  }

  lemma UsedStateIsDead(cfg: Config, db: DB, clock: Time, call: Call, state: Id)
    requires Inv(cfg, db, clock) && UsesState(cfg, db, call, state)
    ensures Digest(StateTag, 0, state) in db.oauth && StateDead(Apply(cfg, db, call).db, state)
  {
    hide Inv, Load, Next, FullPrincipal, OAuthOk;
    InvOAuth(cfg, db, clock);
    var key := Digest(StateTag, 0, state);
    assert key in db.oauth && Apply(cfg, db, call).db == db.(oauth := db.oauth - {key});
    hide Apply, Transact;
    StateWasDrawn(db, state);
  }

  lemma StateWasDrawn(db: DB, state: Id)
    requires OAuthOk(db.oauth, db.supply) && Digest(StateTag, 0, state) in db.oauth
    ensures state < db.supply
  {
  }

  /** Over any run at most one committed transaction spends a given authorization state. */
  lemma StateSpentOnce(cfg: Config, run: seq<Call>, now: Time, i: nat, j: nat, state: Id)
    requires Ordered(run, now) && i < j < |run| && UsesState(cfg, After(cfg, run[..i]), run[i], state)
    ensures !UsesState(cfg, After(cfg, run[..j]), run[j], state)
  {
    hide Inv, Apply, After, StateDead, UsesState;
    RunBetween(cfg, run, now, i, j);
    UsedStateIsDead(cfg, After(cfg, run[..i]), run[i].now, run[i], state);
    DeadStateOverRun(cfg, After(cfg, run[..i + 1]), run[i].now, run[i + 1..j], run[j].now, state);
    var c := After(cfg, run[..j]);
    if UsesState(cfg, c, run[j], state) {
      UsedStateIsDead(cfg, c, run[j].now, run[j], state);
      DeadIsAbsent(c, state);
    }
  }

  lemma DeadIsAbsent(db: DB, state: Id)
    requires StateDead(db, state)
    ensures Digest(StateTag, 0, state) !in db.oauth
  {
  }

  // ---------- the step of the attempt ----------

  /** The kind of a step never changes, so the second transaction need not look at it again. */
  lemma KindNeverChanges(cfg: Config, run: seq<Call>, now: Time, i: nat, j: nat, cid: Id)
    requires Ordered(run, now) && i < j < |run|
    requires cid in After(cfg, run[..i]).steps && cid in After(cfg, run[..j]).steps
    ensures var s, t := After(cfg, run[..i]).steps[cid], After(cfg, run[..j]).steps[cid];
      t.kind == s.kind && t.process == s.process && t.detail == s.detail
  {
    hide Inv, Apply, After, Evolved;
    RunBetween(cfg, run, now, i, j);
    var a, b, c := After(cfg, run[..i]), After(cfg, run[..i + 1]), After(cfg, run[..j]);
    InvFlows(cfg, a, run[i].now);
    EveryActionEvolves(cfg, a, run[i].now, run[i]);
    RunEvolves(cfg, b, run[i].now, run[i + 1..j], run[j].now);
    StepThrough(a, b, c, cid);
  }

  lemma StepThrough(a: DB, b: DB, c: DB, cid: Id)
    requires Evolved(a, b) && Evolved(b, c) && StepKeysOk(a.steps, a.supply) && cid in a.steps && cid in c.steps
    ensures c.steps[cid].kind == a.steps[cid].kind && c.steps[cid].process == a.steps[cid].process && c.steps[cid].detail == a.steps[cid].detail
  {
    assert cid in b.steps;
  }

  /** The begin and the finish of one attempt. */
  predicate SameAttempt(begin: Action, finish: Action) {
    && begin.BeginProvider? && finish.FinishProvider?
    && begin.id == finish.id && begin.cid == finish.cid && begin.flow == finish.flow && begin.who == finish.who && begin.kind == finish.kind
  }

  lemma BeginAdmits(cfg: Config, db: DB, call: Call)
    requires call.action.BeginProvider? && Transact(cfg, db, call.now, call.action).Ok?
    ensures var a := call.action; IsProvider(a.kind) && a.cid in db.steps && db.steps[a.cid].kind == a.kind && db.steps[a.cid].process == a.id
  {
    hide Load, Next;
  }

  /** In the second transaction the kind seen by the first is still that of the step: comparing them again could never fail. */
  lemma KindRecheckIsRedundant(cfg: Config, run: seq<Call>, now: Time, i: nat, j: nat)
    requires Ordered(run, now) && i < j < |run| && SameAttempt(run[i].action, run[j].action)
    requires Transact(cfg, After(cfg, run[..i]), run[i].now, run[i].action).Ok?
    requires run[j].action.cid in After(cfg, run[..j]).steps
    ensures After(cfg, run[..j]).steps[run[j].action.cid].kind == run[j].action.kind && IsProvider(run[j].action.kind)
  {
    hide After, BeginProviderTx, Transact;
    BeginAdmits(cfg, After(cfg, run[..i]), run[i]);
    KindNeverChanges(cfg, run, now, i, j, run[j].action.cid);
  }
}
