/** A session accepts one refresh token at a time, the last one committed, and each token once. */
module RefreshChain {
  import opened Base
  import opened Secrets
  import opened Store
  import opened Answers
  import opened Processes
  import opened Accounts
  import opened Totps
  import opened Sessions
  import opened Mails
  import opened Protocol
  import opened Invariant
  import opened Frames
  import opened KeyActions
  import opened Reachability
  import opened Barriers

  // ---------- at one instant ----------

  lemma OneTokenAtATime(db: DB, now: Time, id: Id, r: Id, s: Id)
    requires AcceptsRefresh(db, now, id, r) && AcceptsRefresh(db, now, id, s)
    ensures r == s
  {
  }

  /** A committed refresh hands over to the token it returns; a refused one changes nothing. */
  lemma RefreshHandsOver(cfg: Config, db: DB, clock: Time, now: Time, id: Id, refresh: Id, ttl: int, other: Id)
    requires Inv(cfg, db, clock)
    ensures var r := RefreshTx(db, now, id, refresh, ttl);
      && (r.Ok? ==>
            && AcceptsRefresh(db, now, id, refresh) && r.value.answer.Tokens? && r.value.answer.session == id
            && (ttl > 0 ==> (AcceptsRefresh(r.value.db, now, id, other) <==> other == r.value.answer.refresh))
            && r.value.answer.refresh != refresh)
      && (r.Err? ==> Settle(db, r).db == db)
  {
    hide Core;
    assert id in db.sessions ==> IsDrawn(db.sessions[id].refresh, RefreshTag, db.supply);
    hide Keys;
  }

  // ---------- over runs ----------

  /** The token was drawn, and no session holds it. */
  ghost predicate RefreshDead(db: DB, token: Id) {
    token < db.supply && forall s | s in db.sessions :: db.sessions[s].refresh != Digest(RefreshTag, 0, token)
  }

  /** Sessions keep their token or hold one just drawn. */
  ghost predicate TokensDrawn(a: DB, b: DB) {
    && a.supply <= b.supply
    && forall s | s in b.sessions ::
         || (s in a.sessions && b.sessions[s].refresh == a.sessions[s].refresh)
         || b.sessions[s].refresh.value >= a.supply
  }

  lemma IssuedDraws(a: DB, b: DB, x: Id)
    requires SessionIssued(a, b, x)
    ensures TokensDrawn(a, b)
  {
  }

  lemma SessionsDraw(cfg: Config, db: DB, call: Call)
    requires SessionsOk(db.sessions, db.supply)
    ensures TokensDrawn(db, Apply(cfg, db, call).db)
  {
    hide SessionsOk, CreateSessionTx, RefreshTx, SessionIssued, AcceptsRefresh, Framed, Shrunk, TokensDrawn;
    var b := Apply(cfg, db, call).db;
    if call.action.CreateSession? && Transact(cfg, db, call.now, call.action).Ok? {
      CreateSessionIssues(db, call.now, call.action.grant, call.action.ttl);
      IssuedDraws(db, b, db.supply + 1);
    } else if call.action.Refresh? && Transact(cfg, db, call.now, call.action).Ok? {
      RefreshIssues(db, call.now, call.action.session, call.action.refresh, call.action.ttl);
      IssuedDraws(db, b, call.action.session);
    } else if Drops(call.action) {
      hide Transact;
      DropsShrink(cfg, db, call);
      EveryActionFramed(cfg, db, call);
      ShrunkDraws(call.action, db, b);
    } else if !WritesSessions(call.action) {
      hide Transact;
      EveryActionFramed(cfg, db, call);
      SameSessionsDraw(call.action, db, b);
    } else {
      SameDraws(db);
    }
  }

  lemma SameDraws(a: DB)
    ensures TokensDrawn(a, a)
  {
  }

  lemma ShrunkDraws(action: Action, a: DB, b: DB)
    requires Shrunk(a, b) && Framed(action, a, b)
    ensures TokensDrawn(a, b)
  {
  }

  lemma SameSessionsDraw(action: Action, a: DB, b: DB)
    requires Framed(action, a, b) && !WritesSessions(action)
    ensures TokensDrawn(a, b)
  {
  }

  lemma DeadRefreshStaysDead(a: DB, b: DB, token: Id)
    requires RefreshDead(a, token) && TokensDrawn(a, b)
    ensures RefreshDead(b, token)
  {
  }

  lemma {:induction false} DeadRefreshOverRun(cfg: Config, db: DB, clock: Time, run: seq<Call>, now: Time, token: Id)
    requires Inv(cfg, db, clock) && Follows(clock, run, now) && RefreshDead(db, token)
    ensures RefreshDead(RunFrom(cfg, db, run), token)
    decreases |run|
  {
    hide Inv, Apply, RefreshDead, TokensDrawn;
    if run != [] {
      var n := |run| - 1;
      var d := RunFrom(cfg, db, run[..n]);
      FollowsPrefix(clock, run, now);
      DeadRefreshOverRun(cfg, db, clock, run[..n], run[n].now, token);
      InvThroughout(cfg, db, clock, run[..n], run[n].now);
      InvSessions(cfg, d, run[n].now);
      SessionsDraw(cfg, d, run[n]);
      DeadRefreshStaysDead(d, Apply(cfg, d, run[n]).db, token);
    }
  }

  lemma InvSessions(cfg: Config, db: DB, clock: Time)
    requires Inv(cfg, db, clock)
    ensures SessionsOk(db.sessions, db.supply)
  {
    hide Core, SessionsOk;
  }

  /** The call commits by presenting the refresh token. */
  ghost predicate Refreshes(cfg: Config, db: DB, call: Call, token: Id) {
    call.action.Refresh? && call.action.refresh == token && Transact(cfg, db, call.now, call.action).Ok?
  }

  lemma RefreshedIsDead(cfg: Config, db: DB, clock: Time, call: Call, token: Id)
    requires Inv(cfg, db, clock) && Refreshes(cfg, db, call, token)
    ensures RefreshDead(Apply(cfg, db, call).db, token)
  {
    hide Inv, SessionsOk, RefreshTx, SessionIssued;
    InvSessions(cfg, db, clock);
    RefreshIssues(db, call.now, call.action.session, token, call.action.ttl);
    RefreshedAway(db, Apply(cfg, db, call).db, call.now, call.action.session, token);
  }

  lemma RefreshedAway(a: DB, b: DB, now: Time, id: Id, token: Id)
    requires SessionsOk(a.sessions, a.supply) && SessionIssued(a, b, id) && AcceptsRefresh(a, now, id, token)
    ensures RefreshDead(b, token)
  {
    assert forall s | s in a.sessions && s != id :: a.sessions[s].refresh != a.sessions[id].refresh;
  }

  /** Over any run a refresh token is accepted at most once, even by racing refreshes. */
  lemma RefreshTokenUsedOnce(cfg: Config, run: seq<Call>, now: Time, i: nat, j: nat, token: Id)
    requires Ordered(run, now) && i < j < |run| && Refreshes(cfg, After(cfg, run[..i]), run[i], token)
    ensures !Refreshes(cfg, After(cfg, run[..j]), run[j], token)
  {
    hide Inv, Apply, After, RefreshDead, Refreshes;
    RunBetween(cfg, run, now, i, j);
    RefreshedIsDead(cfg, After(cfg, run[..i]), run[i].now, run[i], token);
    DeadRefreshOverRun(cfg, After(cfg, run[..i + 1]), run[i].now, run[i + 1..j], run[j].now, token);
    DeadIsRefused(cfg, After(cfg, run[..j]), run[j], token);
  }

  lemma DeadIsRefused(cfg: Config, db: DB, call: Call, token: Id)
    requires RefreshDead(db, token)
    ensures !Refreshes(cfg, db, call, token)
  {
  }

  // ---------- the last token issued ----------

  /** The call commits by issuing tokens for the session. */
  predicate IssuesFor(call: Call, c: Commit, id: Id) {
    (call.action.CreateSession? || call.action.Refresh?) && c.answer.Tokens? && c.answer.session == id
  }

  /** The refresh token that the run issued last for the session. */
  ghost function LastIssued(cfg: Config, run: seq<Call>, id: Id): Option<Id> {
    if run == [] then None
    else
      var n := |run| - 1;
      var c := Apply(cfg, After(cfg, run[..n]), run[n]);
      if IssuesFor(run[n], c, id) then Some(c.answer.refresh) else LastIssued(cfg, run[..n], id)
  }

  /** A session holds the token issued for it by this call, or the one it held before. */
  ghost predicate Holds(db: DB, call: Call, c: Commit, id: Id) {
    id in c.db.sessions ==>
      if IssuesFor(call, c, id) then c.db.sessions[id].refresh == Digest(RefreshTag, 0, c.answer.refresh)
      else id in db.sessions && c.db.sessions[id].refresh == db.sessions[id].refresh
  }

  lemma CreateSessionHolds(db: DB, call: Call, grant: Id, ttl: int, id: Id)
    requires call.action.CreateSession?
    ensures Holds(db, call, Settle(db, CreateSessionTx(db, call.now, grant, ttl)), id)
  {
    hide ConsumeGrant, ProcByGrant;
  }

  lemma RefreshHolds(db: DB, call: Call, session: Id, refresh: Id, ttl: int, id: Id)
    requires call.action.Refresh?
    ensures Holds(db, call, Settle(db, RefreshTx(db, call.now, session, refresh, ttl)), id)
  {
  }

  lemma OthersHold(cfg: Config, db: DB, call: Call, id: Id)
    requires !call.action.CreateSession? && !call.action.Refresh?
    ensures Holds(db, call, Apply(cfg, db, call), id)
  {
    hide Apply;
    EveryActionFramed(cfg, db, call);
    if Drops(call.action) {
      DropsShrink(cfg, db, call);
    }
  }

  lemma EveryActionHolds(cfg: Config, db: DB, call: Call, id: Id)
    ensures Holds(db, call, Apply(cfg, db, call), id)
  {
    hide *;
    Dispatched(cfg, db, call);
    match call.action
    case CreateSession(grant, ttl) => CreateSessionHolds(db, call, grant, ttl, id);
    case Refresh(session, refresh, ttl) => RefreshHolds(db, call, session, refresh, ttl, id);
    case _ => OthersHold(cfg, db, call, id);
  }

  lemma {:induction false} HeldIsLastIssued(cfg: Config, run: seq<Call>, id: Id)
    requires id in After(cfg, run).sessions
    ensures LastIssued(cfg, run, id).Some? && After(cfg, run).sessions[id].refresh == Digest(RefreshTag, 0, LastIssued(cfg, run, id).value)
  {
    hide Apply, IssuesFor;
    assert run != [];
    var n := |run| - 1;
    var a, call := After(cfg, run[..n]), run[n];
    EveryActionHolds(cfg, a, call, id);
    if !IssuesFor(call, Apply(cfg, a, call), id) {
      HeldIsLastIssued(cfg, run[..n], id);
    }
  }

  /** After every run a live session accepts exactly the refresh token issued for it last. */
  lemma LastIssuedIsAccepted(cfg: Config, run: seq<Call>, now: Time, id: Id, r: Id)
    requires id in After(cfg, run).sessions && After(cfg, run).sessions[id].expires > now
    ensures AcceptsRefresh(After(cfg, run), now, id, r) <==> LastIssued(cfg, run, id) == Some(r)
  {
    hide After, LastIssued;
    HeldIsLastIssued(cfg, run, id);
  }

  // ---------- who survives a credential change ----------

  lemma DropSessionsLeaves(db: DB, gone: set<Id>)
    ensures forall s :: s in DropSessions(db, gone).sessions <==> s in db.sessions && s !in gone
    ensures forall s | s in DropSessions(db, gone).sessions :: DropSessions(db, gone).sessions[s] == db.sessions[s]
  {
  }

  lemma ReplacePasswordLeaves(db: DB, now: Time, account: Id, password: Store.Password, keep: set<Id>)
    requires account in db.accounts
    ensures var r := ReplacePassword(db, now, account, password, keep);
      r.Ok? && SessionsOf(r.value.db, account) == SessionsOf(db, account) * keep
  {
    hide DropSessions, StorePassword, Invalidate;
    PasswordKeepsSessions(db, now, account, password);
    var d := Notify(Invalidate(StorePassword(db, account, password), account, now), account, PasswordChanged);
    DropSessionsLeaves(d, SessionsOf(d, account) - keep);
  }

  lemma PasswordKeepsSessions(db: DB, now: Time, account: Id, password: Store.Password)
    requires account in db.accounts
    ensures var c := StorePassword(db, account, password);
      account in Invalidate(c, account, now).accounts && Notify(Invalidate(c, account, now), account, PasswordChanged).sessions == db.sessions
  {
  }

  /** After a reset no session of the account is left. */
  lemma ResetEndsSessions(db: DB, now: Time, link: Id, password: Store.Password)
    requires ConfirmPasswordResetTx(db, now, link, password).Ok?
    ensures var found := ResetByToken(db.resets, db.supply, Digest(ResetTag, 0, link));
      found.Some? && SessionsOf(ConfirmPasswordResetTx(db, now, link, password).value.db, found.value) == {}
  {
    hide ReplacePassword, ResetByToken;
    var a := ResetByToken(db.resets, db.supply, Digest(ResetTag, 0, link)).value;
    ReplacePasswordLeaves(db.(resets := db.resets - {a}), now, a, password, {});
  }

  /** After a changed password only the caller's session is left. */
  lemma ChangedPasswordLeavesCaller(cfg: Config, db: DB, now: Time, who: Principal, grant: Id, password: Store.Password)
    requires SetPasswordTx(cfg, db, now, who, grant, password).Ok?
    requires who.Bearer? && who.account in db.accounts && !SamePassword(cfg, db.accounts[who.account], password)
    ensures SessionsOf(SetPasswordTx(cfg, db, now, who, grant, password).value.db, who.account) == {who.session}
  {
    hide ReplacePassword, ConsumeGrant, HoldsGrant, Spendable;
    assert who.session in SessionsOf(db, who.account);
    if db.accounts[who.account].password.None? {
      ReplacePasswordLeaves(db, now, who.account, password, {who.session});
    } else {
      ReplacePasswordLeaves(ConsumeGrant(db, now, grant, PasswordChange, who).value.db, now, who.account, password, {who.session});
    }
  }

  /** After enrolment only the caller's session is left. */
  lemma EnrolmentLeavesCaller(cfg: Config, db: DB, now: Time, who: Principal, digits: string)
    requires ConfirmTotpTx(cfg, db, now, who, digits).Ok?
    ensures who.Bearer? && SessionsOf(ConfirmTotpTx(cfg, db, now, who, digits).value.db, who.account) == {who.session}
  {
    hide TotpStep, DropSessions, ReplaceBackupCodes;
    var a := who.account;
    var key := db.activations[a].key;
    var used := TotpStep(cfg.mac, key, digits, now, -1);
    var c := db.(totp := db.totp[a := TotpFactor(key, used.value)], activations := db.activations - {a});
    var d := Invalidate(c, a, now);
    var gone := SessionsOf(d, a) - {who.session};
    assert who.session in SessionsOf(db, a) && d.sessions == db.sessions;
    DropSessionsLeaves(d, gone);
    ReplacedCodesOnly(DropSessions(d, gone), a);
  }
}
