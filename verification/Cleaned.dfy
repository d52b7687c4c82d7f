/** Over runs: with or without a cleanup every call is answered alike, but for one that meets a lapsed request. */
module CleanedRuns {
  import opened Base
  import opened Secrets
  import opened Store
  import opened Answers
  import opened Processes
  import opened Challenges
  import opened Accounts
  import opened Mails
  import opened Cleanups
  import opened Protocol
  import opened Invariant
  import opened QuietActions
  import opened Frames
  import opened KeyActions
  import opened Reachability
  import opened Trimming
  import opened Links
  import opened Similarity
  import opened SimilarAccounts
  import opened Neutrality
  import opened EmailChanges

  // ---------- what one call decides ----------

  /** The answer of a call, or nothing when it is refused and rolled back. */
  function Decision(cfg: Config, db: DB, call: Call): Option<Answer> {
    var r := Transact(cfg, db, call.now, call.action);
    if r.Ok? then Some(r.value.answer) else None
  }

  lemma RefusalKeeps(cfg: Config, db: DB, call: Call)
    requires Decision(cfg, db, call) == None
    ensures Apply(cfg, db, call).db == db
  {
    hide Transact;
  }

  /** The caller holds a live grant for changing the address of an unblocked account that is not about to be deleted. */
  predicate HoldsChangeGrant(db: DB, now: Time, who: Principal, token: Id) {
    var found := ProcByGrant(db.procs, db.supply, Digest(GrantTag, 0, token));
    && who.Bearer? && found.Some? && Spendable(db.procs[found.value], EmailChanging, now)
    && db.procs[found.value].account == Some(who.account) && db.procs[found.value].session == Some(who.session)
    && FullPrincipal(db, now, who)
  }

  /** Everything that ChangeEmail asks for, but that no request stands in the way. */
  predicate MayChangeEmail(cfg: Config, db: DB, call: Call)
    requires call.action.ChangeEmail?
  {
    var email := cfg.normalize(call.action.email);
    && cfg.parsesAsAddress(email) && call.action.baseOk
    && HoldsChangeGrant(db, call.now, call.action.who, call.action.grant)
    && db.accounts[call.action.who.account].email != email
  }

  lemma GrantIsHeld(db: DB, now: Time, who: Principal, token: Id)
    ensures ConsumeGrant(db, now, token, EmailChanging, who).Ok? <==> HoldsChangeGrant(db, now, who, token)
  {
    hide ProcByGrant, HoldsGrant, LiveSession;
  }

  lemma ChangeEmailDecides(cfg: Config, db: DB, now: Time, who: Principal, grant: Id, email: string, baseOk: bool)
    ensures ChangeEmailTx(cfg, db, now, who, grant, email, baseOk).Ok?
        <==> MayChangeEmail(cfg, db, Call(now, ChangeEmail(who, grant, email, baseOk))) && who.account !in db.changes
  {
    GrantIsHeld(db, now, who, grant);
    hide ProcByGrant, HoldsGrant, Spendable, LiveSession;
  }

  lemma DecisionOnEmail(cfg: Config, db: DB, call: Call)
    requires call.action.ChangeEmail?
    ensures Decision(cfg, db, call).Some? <==> MayChangeEmail(cfg, db, call) && call.action.who.account !in db.changes
  {
    hide Transact, MayChangeEmail, ChangeEmailTx;
    var ChangeEmail(who, grant, email, baseOk) := call.action;
    Dispatched(cfg, db, call);
    ChangeEmailDecides(cfg, db, call.now, who, grant, email, baseOk);
  }

  lemma SameLeave(cfg: Config, a: DB, b: DB, call: Call)
    requires Pair(cfg, a, b, call.now) && call.action.ChangeEmail?
    ensures MayChangeEmail(cfg, a, call) <==> MayChangeEmail(cfg, b, call)
  {
    hide Pair, Trim, ConsumeGrant, HoldsChangeGrant;
    var who, grant := call.action.who, call.action.grant;
    GrantIsHeld(a, call.now, who, grant);
    GrantIsHeld(b, call.now, who, grant);
    SpendSimilar(cfg, a, b, call.now, grant, EmailChanging, who);
    PairFacts(cfg, a, b, call.now);
  }

  /** A request of the caller's account to change its address had lapsed at the time t. */
  predicate Lapsed(db: DB, call: Call, t: Time) {
    && call.action.ChangeEmail? && call.action.who.Bearer?
    && call.action.who.account in db.changes && db.changes[call.action.who.account].expires < t
  }

  /** The call asks for a change of address that is in order, and a request that had lapsed at the time t stands in its way. */
  predicate MeetsLapsed(cfg: Config, db: DB, call: Call, t: Time) {
    Lapsed(db, call, t) && MayChangeEmail(cfg, db, call)
  }

  /** Of the requests in a, those in b are the ones that had not lapsed at the time t. */
  ghost predicate LapsedGone(a: map<Id, EmailChangeRequest>, b: map<Id, EmailChangeRequest>, t: Time) {
    forall x | x in a :: x in b <==> a[x].expires >= t
  }

  lemma FreshWithoutLapsed(a: DB, b: DB, call: Call, t: Time)
    requires call.action.ChangeEmail? && call.action.who.Bearer? && LapsedGone(a.changes, b.changes, t)
    ensures FreshChange(a, b, call.action.who.account) <==> !Lapsed(a, call, t)
  {
  }

  lemma SimilarDecides(cfg: Config, a: DB, b: DB, call: Call)
    requires Similar(cfg, Transact(cfg, a, call.now, call.action), Transact(cfg, b, call.now, call.action), call.now) && Trim(cfg, a, b, call.now)
    ensures Decision(cfg, a, call) == Decision(cfg, b, call)
    ensures Trim(cfg, Apply(cfg, a, call).db, Apply(cfg, b, call).db, call.now)
  {
    hide Transact, Trim;
  }

  // The two states answer a call alike exactly when it does not meet a lapsed request, and then they stay alike.
  lemma StepAgrees(cfg: Config, a: DB, b: DB, call: Call, t: Time)
    requires Pair(cfg, a, b, call.now) && LapsedGone(a.changes, b.changes, t)
    ensures Decision(cfg, a, call) == Decision(cfg, b, call) <==> !MeetsLapsed(cfg, a, call, t)
    ensures !MeetsLapsed(cfg, a, call, t) ==> Trim(cfg, Apply(cfg, a, call).db, Apply(cfg, b, call).db, call.now)
  {
    hide Transact, Decision, Trim, Inv, Linked, LapsedGone, FreshChange, MayChangeEmail, Similar, Apply;
    if call.action.ChangeEmail? && call.action.who.Bearer? {
      FreshWithoutLapsed(a, b, call, t);
    }
    if Lapsed(a, call, t) {
      LapsedDecides(cfg, a, b, call, t);
    } else {
      EveryActionSimilar(cfg, a, b, call);
      SimilarDecides(cfg, a, b, call);
    }
  }

  lemma LapsedDecides(cfg: Config, a: DB, b: DB, call: Call, t: Time)
    requires Pair(cfg, a, b, call.now) && LapsedGone(a.changes, b.changes, t) && Lapsed(a, call, t)
    ensures Decision(cfg, a, call) == None && (Decision(cfg, b, call).Some? <==> MayChangeEmail(cfg, a, call))
    ensures !MayChangeEmail(cfg, a, call) ==> Trim(cfg, Apply(cfg, a, call).db, Apply(cfg, b, call).db, call.now)
  {
    hide Transact, Decision, Trim, Inv, Linked, MayChangeEmail, Apply;
    DecisionOnEmail(cfg, a, call);
    DecisionOnEmail(cfg, b, call);
    SameLeave(cfg, a, b, call);
    LapsedIsAbsent(cfg, a, b, call, t);
    RefusalKeeps(cfg, a, call);
    if Decision(cfg, b, call) == None {
      RefusalKeeps(cfg, b, call);
    }
  }

  lemma LapsedIsAbsent(cfg: Config, a: DB, b: DB, call: Call, t: Time)
    requires LapsedGone(a.changes, b.changes, t) && Lapsed(a, call, t)
    ensures call.action.who.account !in b.changes
  {
  }

  // ---------- what one call does to the requests ----------

  /** A row that is new or changed expires later than now; a row goes when it is purged, or before it lapses. */
  ghost predicate ChangesMove(a: DB, b: DB, call: Call) {
    && (forall x | x in b.changes :: (x in a.changes && b.changes[x] == a.changes[x]) || b.changes[x].expires >= call.now)
    && (forall x | x in a.changes && x !in b.changes ::
          a.changes[x].expires >= call.now || call.action.Cleanup?)
    && (call.action.Cleanup? ==> forall x | x in b.changes :: b.changes[x].expires >= call.now)
  }

  lemma EveryActionMoves(cfg: Config, db: DB, call: Call)
    requires !call.action.DeleteDue?
    ensures ChangesMove(db, Apply(cfg, db, call).db, call)
  {
    hide *;
    Dispatched(cfg, db, call);
    match call.action
    case ChangeEmail(who, grant, email, baseOk) => ChangeEmailMoves(cfg, db, call);
    case ConfirmEmail(link, baseOk) => ConfirmMoves(cfg, db, call);
    case Cleanup => CleanupMoves(cfg, db, call);
    case _ => OthersMove(cfg, db, call);
  }

  lemma OthersMove(cfg: Config, db: DB, call: Call)
    requires !call.action.ChangeEmail? && !call.action.ConfirmEmail? && !call.action.Cleanup? && !call.action.DeleteDue?
    ensures ChangesMove(db, Apply(cfg, db, call).db, call)
  {
    hide Apply;
    EveryActionFramed(cfg, db, call);
  }

  lemma UnchangedMoves(db: DB, call: Call)
    requires !call.action.Cleanup?
    ensures ChangesMove(db, db, call)
  {
  }

  lemma ChangeEmailMoves(cfg: Config, db: DB, call: Call)
    requires call.action.ChangeEmail?
    ensures ChangesMove(db, Apply(cfg, db, call).db, call)
  {
    hide ChangeEmailTx, Transact, Apply, ChangesMove;
    var ChangeEmail(who, grant, email, baseOk) := call.action;
    Dispatched(cfg, db, call);
    if ChangeEmailTx(cfg, db, call.now, who, grant, email, baseOk).Ok? {
      AskedRow(cfg, db, call.now, who, grant, email, baseOk);
      OneRowMoves(db, Apply(cfg, db, call).db, call, who.account);
    } else {
      UnchangedMoves(db, call);
    }
  }

  lemma OneRowMoves(a: DB, b: DB, call: Call, x: Id)
    requires x in b.changes && b.changes == a.changes[x := b.changes[x]] && b.changes[x].expires >= call.now
    requires !call.action.Cleanup?
    ensures ChangesMove(a, b, call)
  {
  }

  lemma OneRowGoes(a: DB, b: DB, call: Call, x: Id)
    requires x in a.changes && b.changes == a.changes - {x} && a.changes[x].expires >= call.now
    requires !call.action.Cleanup?
    ensures ChangesMove(a, b, call)
  {
  }

  lemma ConfirmMoves(cfg: Config, db: DB, call: Call)
    requires call.action.ConfirmEmail?
    ensures ChangesMove(db, Apply(cfg, db, call).db, call)
  {
    hide ConfirmEmailTx, Transact, Apply, ChangesMove, ChangeByToken, MoveAddress, AskNewAddress, Invalidate, Movable;
    var ConfirmEmail(link, baseOk) := call.action;
    Dispatched(cfg, db, call);
    if ConfirmEmailTx(db, call.now, link, baseOk).Ok? {
      ConfirmEmailDecides(db, call.now, link, baseOk);
      var x := Changing(db, call.now, link).value;
      StageRows(db, x, call.now);
      if db.changes[x].stage == AwaitingPrevious {
        OneRowMoves(db, Apply(cfg, db, call).db, call, x);
      } else {
        OneRowGoes(db, Apply(cfg, db, call).db, call, x);
      }
    } else {
      UnchangedMoves(db, call);
    }
  }

  lemma StageRows(db: DB, x: Id, now: Time)
    requires x in db.changes
    ensures Movable(db, x) ==> Invalidate(MoveAddress(db, x), x, now).changes == db.changes - {x}
    ensures var b := AskNewAddress(db, x, now); x in b.changes && b.changes == db.changes[x := b.changes[x]] && b.changes[x].expires >= now
  {
    hide InvalidateRow, EmailTaken;
  }

  lemma CleanupMoves(cfg: Config, db: DB, call: Call)
    requires call.action.Cleanup?
    ensures ChangesMove(db, Apply(cfg, db, call).db, call)
  {
    hide Apply;
    CleanedChanges(cfg, db, call.now);
  }

  function OfAccounts(changes: map<Id, EmailChangeRequest>, accounts: set<Id>): map<Id, EmailChangeRequest> {
    map c | c in changes && c in accounts :: changes[c]
  }

  /** A deletion takes the request of its account in the same way from both states. */
  lemma DeleteDueChanges(db: DB, now: Time)
    ensures var due := NextDue(db.accounts, db.deletions, db.supply, now);
      Settle(db, DeleteDueTx(db, now)).db.changes == if due.Some? then OfAccounts(db.changes, db.accounts.Keys - {due.value}) else db.changes
  {
    hide NextDue, DropAccount;
    var due := NextDue(db.accounts, db.deletions, db.supply, now);
    if due.Some? {
      DroppedChanges(Notify(Enqueue(db, ProfileDeleted(due.value, db.deletions[due.value].shared)), due.value, AccountDeleted), due.value);
    }
  }

  lemma DroppedChanges(db: DB, x: Id)
    ensures DropAccount(db, x).changes == OfAccounts(db.changes, db.accounts.Keys - {x})
  {
  }

  lemma DeleteDueSettles(cfg: Config, db: DB, call: Call)
    requires call.action.DeleteDue?
    ensures Apply(cfg, db, call) == Settle(db, DeleteDueTx(db, call.now))
  {
    hide *;
    Dispatched(cfg, db, call);
  }

  lemma DeleteDueKeepsLapsedGone(cfg: Config, a: DB, b: DB, call: Call, t: Time)
    requires call.action.DeleteDue? && SameShared(a, b) && LapsedGone(a.changes, b.changes, t) && Within(b.changes, a.changes)
    ensures LapsedGone(Apply(cfg, a, call).db.changes, Apply(cfg, b, call).db.changes, t)
  {
    hide DeleteDueTx, Apply, NextDue;
    DeleteDueSettles(cfg, a, call);
    DeleteDueSettles(cfg, b, call);
    DeleteDueChanges(a, call.now);
    DeleteDueChanges(b, call.now);
  }

  lemma LapsedGoneStays(cfg: Config, a: DB, b: DB, c: DB, d: DB, call: Call, t: Time)
    requires LapsedGone(a.changes, b.changes, t) && Within(b.changes, a.changes) && t <= call.now
    requires ChangesMove(a, c, call) && ChangesMove(b, d, call)
    requires TrimChanges(c.changes, d.changes, call.now)
    ensures LapsedGone(c.changes, d.changes, t)
  {
  }

  lemma StepKeepsLapsedGone(cfg: Config, a: DB, b: DB, call: Call, t: Time)
    requires Trim(cfg, a, b, call.now) && LapsedGone(a.changes, b.changes, t) && t <= call.now
    requires Trim(cfg, Apply(cfg, a, call).db, Apply(cfg, b, call).db, call.now)
    ensures LapsedGone(Apply(cfg, a, call).db.changes, Apply(cfg, b, call).db.changes, t)
  {
    hide Apply, ChangesMove, LapsedGone, TrimFlows, TrimOAuth, TrimResets, TrimActivations, TrimPasskeyRequests;
    if call.action.DeleteDue? {
      DeleteDueKeepsLapsedGone(cfg, a, b, call, t);
    } else {
      EveryActionMoves(cfg, a, call);
      EveryActionMoves(cfg, b, call);
      LapsedGoneStays(cfg, a, b, Apply(cfg, a, call).db, Apply(cfg, b, call).db, call, t);
    }
  }

  function Unexpired(changes: map<Id, EmailChangeRequest>, now: Time): map<Id, EmailChangeRequest> {
    map c | c in changes && changes[c].expires >= now :: changes[c]
  }

  lemma {:induction false} CleanupPurgesChanges(cfg: Config, db: DB, now: Time, qs: seq<Statement>)
    ensures ExecuteAll(cfg, db, now, qs).changes == if PurgeChanges in qs then Unexpired(db.changes, now) else db.changes
  {
    hide Execute, Unexpired;
    if qs != [] {
      var m := qs[..|qs| - 1];
      CleanupPurgesChanges(cfg, db, now, m);
      StatementPurgesChanges(cfg, ExecuteAll(cfg, db, now, m), now, qs[|qs| - 1]);
      assert qs == m + [qs[|qs| - 1]];
      UnexpiredOnce(db.changes, now);
    }
  }

  lemma UnexpiredOnce(changes: map<Id, EmailChangeRequest>, now: Time)
    ensures Unexpired(Unexpired(changes, now), now) == Unexpired(changes, now)
  {
  }

  lemma StatementPurgesChanges(cfg: Config, db: DB, now: Time, q: Statement)
    ensures Execute(cfg, db, now, q).changes == if q == PurgeChanges then Unexpired(db.changes, now) else db.changes
  {
  }

  lemma CleanedChanges(cfg: Config, db: DB, t: Time)
    ensures Apply(cfg, db, Call(t, Cleanup)).db.changes == Unexpired(db.changes, t)
  {
    hide *;
    Dispatched(cfg, db, Call(t, Cleanup));
    CleanupChanges(cfg, db, t);
  }

  lemma CleanupChanges(cfg: Config, db: DB, t: Time)
    ensures Settle(db, CleanupTx(cfg, db, t)).db.changes == Unexpired(db.changes, t)
  {
    hide ExecuteAll;
    CleanupPurgesChanges(cfg, db, t, STATEMENTS);
    assert STATEMENTS[1] == PurgeChanges;
  }

  // ---------- over runs ----------

  /** Both states answer every call of the run alike. */
  ghost predicate AnswersAgree(cfg: Config, a: DB, b: DB, run: seq<Call>) {
    forall i | 0 <= i < |run| :: Decision(cfg, RunFrom(cfg, a, run[..i]), run[i]) == Decision(cfg, RunFrom(cfg, b, run[..i]), run[i])
  }

  /** No call of the run meets a request that had lapsed at the time t. */
  ghost predicate NeverMeets(cfg: Config, a: DB, run: seq<Call>, t: Time) {
    forall i | 0 <= i < |run| :: !MeetsLapsed(cfg, RunFrom(cfg, a, run[..i]), run[i], t)
  }

  lemma AnswersPrefix(cfg: Config, a: DB, b: DB, run: seq<Call>)
    requires run != []
    ensures var n := |run| - 1;
      AnswersAgree(cfg, a, b, run) <==> AnswersAgree(cfg, a, b, run[..n])
                                        && Decision(cfg, RunFrom(cfg, a, run[..n]), run[n]) == Decision(cfg, RunFrom(cfg, b, run[..n]), run[n])
  {
    hide RunFrom, Decision;
    var m := run[..|run| - 1];
    assert forall i | 0 <= i < |m| :: m[..i] == run[..i] && m[i] == run[i];
  }

  lemma MeetsPrefix(cfg: Config, a: DB, run: seq<Call>, t: Time)
    requires run != []
    ensures var n := |run| - 1;
      NeverMeets(cfg, a, run, t) <==> NeverMeets(cfg, a, run[..n], t) && !MeetsLapsed(cfg, RunFrom(cfg, a, run[..n]), run[n], t)
  {
    hide RunFrom, MeetsLapsed;
    var m := run[..|run| - 1];
    assert forall i | 0 <= i < |m| :: m[..i] == run[..i] && m[i] == run[i];
  }

  // One more call: the states stay a pair.
  lemma PairStays(cfg: Config, a: DB, b: DB, clock: Time, m: seq<Call>, call: Call)
    requires Pair(cfg, a, b, clock) && Follows(clock, m, call.now)
    requires Trim(cfg, RunFrom(cfg, a, m), RunFrom(cfg, b, m), call.now)
    ensures Pair(cfg, RunFrom(cfg, a, m), RunFrom(cfg, b, m), call.now)
  {
    hide Trim, Inv, Linked, RunFrom, Follows;
    InvThroughout(cfg, a, clock, m, call.now);
    InvThroughout(cfg, b, clock, m, call.now);
    LinkedThroughout(cfg, b, clock, m, call.now);
  }

  /** What one state has that the other lacks is dead, and the requests it lacks are those that had lapsed at the time t. */
  ghost predicate Cleaner(cfg: Config, a: DB, b: DB, t: Time, now: Time) {
    Trim(cfg, a, b, now) && LapsedGone(a.changes, b.changes, t)
  }

  /** Two states that differ in dead rows only answer a run alike exactly when it meets no lapsed request, and then stay so. */
  lemma {:induction false} RunsStaySimilar(cfg: Config, a: DB, b: DB, t: Time, clock: Time, run: seq<Call>, now: Time)
    requires Pair(cfg, a, b, clock) && LapsedGone(a.changes, b.changes, t) && t <= clock && Follows(clock, run, now)
    ensures AnswersAgree(cfg, a, b, run) <==> NeverMeets(cfg, a, run, t)
    ensures NeverMeets(cfg, a, run, t) ==> Cleaner(cfg, RunFrom(cfg, a, run), RunFrom(cfg, b, run), t, now)
    decreases |run|
  {
    hide Pair, Apply, Decision, MeetsLapsed, NeverMeets, AnswersAgree, Ordered, Cleaner, LapsedGone;
    if run == [] {
      NothingYet(cfg, a, b, t, clock, now);
    } else {
      var n := |run| - 1;
      var m, call := run[..n], run[n];
      FollowsPrefix(clock, run, now);
      MeetsPrefix(cfg, a, run, t);
      AnswersPrefix(cfg, a, b, run);
      RunsStaySimilar(cfg, a, b, t, clock, m, call.now);
      if NeverMeets(cfg, a, m, t) {
        LastAgrees(cfg, a, b, t, clock, m, call, now);
      }
    }
  }

  lemma NothingYet(cfg: Config, a: DB, b: DB, t: Time, clock: Time, now: Time)
    requires Pair(cfg, a, b, clock) && LapsedGone(a.changes, b.changes, t) && clock <= now
    ensures Cleaner(cfg, a, b, t, now) && AnswersAgree(cfg, a, b, []) && NeverMeets(cfg, a, [], t)
  {
    hide Trim, Inv, Linked, Decision, RunFrom, LapsedGone, MeetsLapsed;
    TrimLater(cfg, a, b, clock, now);
  }

  lemma LastAgrees(cfg: Config, a: DB, b: DB, t: Time, clock: Time, m: seq<Call>, call: Call, now: Time)
    requires Pair(cfg, a, b, clock) && t <= clock && Follows(clock, m, call.now) && call.now <= now
    requires Cleaner(cfg, RunFrom(cfg, a, m), RunFrom(cfg, b, m), t, call.now)
    ensures var c, d := RunFrom(cfg, a, m), RunFrom(cfg, b, m);
      && (Decision(cfg, c, call) == Decision(cfg, d, call) <==> !MeetsLapsed(cfg, c, call, t))
      && (!MeetsLapsed(cfg, c, call, t) ==> Cleaner(cfg, Apply(cfg, c, call).db, Apply(cfg, d, call).db, t, now))
  {
    hide Pair, Apply, Decision, MeetsLapsed, Ordered, Trim, RunFrom, LapsedGone;
    var c, d := RunFrom(cfg, a, m), RunFrom(cfg, b, m);
    PairStays(cfg, a, b, clock, m, call);
    StepAgrees(cfg, c, d, call, t);
    if !MeetsLapsed(cfg, c, call, t) {
      StepKeepsLapsedGone(cfg, c, d, call, t);
      TrimLater(cfg, Apply(cfg, c, call).db, Apply(cfg, d, call).db, call.now, now);
    }
  }

  /** What cleaned and uncleaned service have in common: all but rows that have expired. */
  ghost predicate SameService(a: DB, b: DB, now: Time) {
    && SameShared(a, b)
    && (forall s | s in a.sessions && a.sessions[s].expires >= now :: s in b.sessions)
    && (forall s | s in b.sessions :: s in a.sessions && b.sessions[s] == a.sessions[s])
  }

  lemma TrimServes(cfg: Config, a: DB, b: DB, now: Time)
    requires Trim(cfg, a, b, now)
    ensures SameService(a, b, now)
  {
    hide TrimRequests, TrimProcs, TrimSteps, TrimSignups, SameShared;
  }

  lemma CleanedPair(cfg: Config, before: seq<Call>, t: Time)
    requires Ordered(before, t)
    ensures Pair(cfg, After(cfg, before), Apply(cfg, After(cfg, before), Call(t, Cleanup)).db, t)
  {
    var a, call := After(cfg, before), Call(t, Cleanup);
    hide Inv, Linked, After, Trim, ExecuteAll;
    Reachable(cfg, before, t);
    InvKept(cfg, a, t, call);
    LinkedAfter(cfg, before, t);
    LinksKept(cfg, a, t, call);
    InvDrawn(cfg, a, t);
    CleanupTrimsAway(cfg, a, t, STATEMENTS);
    hide Rooted, Drawn;
  }

  lemma InvDrawn(cfg: Config, db: DB, now: Time)
    requires Inv(cfg, db, now)
    ensures Rooted(db) && Drawn(db)
  {
    hide Core, Rooted, AccountsOk, ProcKeysOk, OAuthOk, ChangesOk, ResetsOk, PasskeysOk, IdentitiesOk, BackupsOk;
    InvRooted(cfg, db, now);
  }

  lemma LinkedAfter(cfg: Config, run: seq<Call>, now: Time)
    requires Ordered(run, now)
    ensures Linked(After(cfg, run))
  {
    hide Inv, Transact;
    var clock := if run == [] then now else run[0].now;
    EmptyInv(cfg, clock);
    LinkedThroughout(cfg, EMPTY, clock, run, now);
  }

  lemma CleanupLeavesCleaner(cfg: Config, before: seq<Call>, t: Time)
    requires Ordered(before, t)
    ensures var a := After(cfg, before);
      var b := Apply(cfg, a, Call(t, Cleanup)).db;
      Pair(cfg, a, b, t) && LapsedGone(a.changes, b.changes, t)
  {
    hide Pair, After, Apply;
    CleanedPair(cfg, before, t);
    CleanedChanges(cfg, After(cfg, before), t);
  }

  /** For any reachable state and any later run: with or without an interposed cleanup every call is answered alike if and only if
      none asks for a change of address in order that meets a request lapsed before the cleanup; and then the accounts, factors,
      events and unexpired sessions come out the same. */
  lemma CleanupIsNeutral(cfg: Config, before: seq<Call>, t: Time, run: seq<Call>, now: Time)
    requires Ordered(before, t) && Follows(t, run, now)
    ensures var a := After(cfg, before);
      var b := Apply(cfg, a, Call(t, Cleanup)).db;
      && (AnswersAgree(cfg, a, b, run) <==> NeverMeets(cfg, a, run, t))
      && (NeverMeets(cfg, a, run, t) ==> SameService(RunFrom(cfg, a, run), RunFrom(cfg, b, run), now))
  {
    hide *;
    var a := After(cfg, before);
    var b := Apply(cfg, a, Call(t, Cleanup)).db;
    CleanupLeavesCleaner(cfg, before, t);
    RunsStaySimilar(cfg, a, b, t, t, run, now);
    if NeverMeets(cfg, a, run, t) {
      CleanerTrims(cfg, RunFrom(cfg, a, run), RunFrom(cfg, b, run), t, now);
      TrimServes(cfg, RunFrom(cfg, a, run), RunFrom(cfg, b, run), now);
    }
  }

  lemma CleanerTrims(cfg: Config, a: DB, b: DB, t: Time, now: Time)
    requires Cleaner(cfg, a, b, t, now)
    ensures Trim(cfg, a, b, now)
  {
  }

  /** The first answer that differs is that of the first call that meets a lapsed request. */
  lemma FirstDifference(cfg: Config, before: seq<Call>, t: Time, run: seq<Call>, call: Call)
    requires Ordered(before, t) && Follows(t, run, call.now) && NeverMeets(cfg, After(cfg, before), run, t)
    ensures var a := After(cfg, before);
      var b := Apply(cfg, a, Call(t, Cleanup)).db;
      Decision(cfg, RunFrom(cfg, a, run), call) != Decision(cfg, RunFrom(cfg, b, run), call) <==> MeetsLapsed(cfg, RunFrom(cfg, a, run), call, t)
  {
    hide *;
    var a := After(cfg, before);
    var b := Apply(cfg, a, Call(t, Cleanup)).db;
    CleanupLeavesCleaner(cfg, before, t);
    RunsStaySimilar(cfg, a, b, t, t, run, call.now);
    LastAgrees(cfg, a, b, t, t, run, call, call.now);
  }
}
