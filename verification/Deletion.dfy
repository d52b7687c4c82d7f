/** The life of a deletion request: one deadline, the last accepted policy, and never cancellable and deletable at once. */
module Deletions {
  import opened Base
  import opened Store
  import opened Answers
  import opened Processes
  import opened Accounts
  import opened Protocol
  import opened Invariant
  import opened Frames
  import opened KeyActions
  import opened Reachability
  import opened Ledger

  // ---------- at one instant ----------

  /** A request is either open to its owner or due, never both. */
  lemma OpenOrDue(cfg: Config, db: DB, now: Time, who: Principal, grant: Id, shared: bool, delay: int)
    requires RecoveryPrincipal(db, now, who) && who.account in db.deletions
    ensures var due := Due(db.accounts, db.deletions, who.account, now);
      && (CancelDeletionTx(db, now, who).Ok? <==> !due)
      && (PatchDeletionTx(db, now, who, shared).Ok? <==> !due)
      && (due ==> RequestDeletionTx(db, now, who, grant, shared, delay).Err?)
  {
    hide ConsumeGrant, PatchDeletionTx, CancelDeletionTx, RequestDeletionTx;
    OpenIsCancellable(db, now, who);
    OpenIsPatchable(db, now, who, shared);
    if Due(db.accounts, db.deletions, who.account, now) {
      DueIsNotRequestable(db, now, who, grant, shared, delay);
    }
  }

  lemma OpenIsCancellable(db: DB, now: Time, who: Principal)
    requires RecoveryPrincipal(db, now, who) && who.account in db.deletions
    ensures CancelDeletionTx(db, now, who).Ok? <==> !Due(db.accounts, db.deletions, who.account, now)
  {
    hide LiveSession;
  }

  lemma OpenIsPatchable(db: DB, now: Time, who: Principal, shared: bool)
    requires RecoveryPrincipal(db, now, who) && who.account in db.deletions
    ensures PatchDeletionTx(db, now, who, shared).Ok? <==> !Due(db.accounts, db.deletions, who.account, now)
  {
    hide LiveSession;
  }

  lemma DueIsNotRequestable(db: DB, now: Time, who: Principal, grant: Id, shared: bool, delay: int)
    requires who.Bearer? && Due(db.accounts, db.deletions, who.account, now)
    ensures RequestDeletionTx(db, now, who, grant, shared, delay).Err?
  {
    hide LiveSession, HoldsGrant, Spendable;
  }

  // ---------- the deadline ----------

  ghost predicate DeadlinesKept(a: map<Id, Deletion>, b: map<Id, Deletion>) {
    forall x | x in a && x in b :: b[x].at == a[x].at
  }

  lemma RequestKeepsDeadlines(db: DB, now: Time, who: Principal, grant: Id, shared: bool, delay: int)
    ensures DeadlinesKept(db.deletions, Settle(db, RequestDeletionTx(db, now, who, grant, shared, delay)).db.deletions)
  {
    hide ConsumeGrant, HoldsGrant, Spendable, PurposePrincipal;
  }

  lemma OwnerKeepsDeadlines(db: DB, now: Time, who: Principal, shared: bool)
    ensures DeadlinesKept(db.deletions, Settle(db, PatchDeletionTx(db, now, who, shared)).db.deletions)
    ensures DeadlinesKept(db.deletions, Settle(db, CancelDeletionTx(db, now, who)).db.deletions)
  {
    hide RecoveryPrincipal;
  }

  /** No transaction moves the deadline of a request. */
  lemma DeadlineNeverMoves(cfg: Config, db: DB, call: Call)
    ensures DeadlinesKept(db.deletions, Apply(cfg, db, call).db.deletions)
  {
    hide *;
    Dispatched(cfg, db, call);
    match call.action
    case RequestDeletion(who, grant, shared, delay) => RequestKeepsDeadlines(db, call.now, who, grant, shared, delay);
    case PatchDeletion(who, shared) => OwnerKeepsDeadlines(db, call.now, who, shared);
    case CancelDeletion(who) => OwnerKeepsDeadlines(db, call.now, who, false);
    case _ => OthersKeepRequests(cfg, db, call);
  }

  lemma OthersKeepRequests(cfg: Config, db: DB, call: Call)
    requires !call.action.RequestDeletion? && !call.action.PatchDeletion? && !call.action.CancelDeletion?
    ensures DeadlinesKept(db.deletions, Apply(cfg, db, call).db.deletions)
    ensures Within(Apply(cfg, db, call).db.deletions, db.deletions)
  {
    hide Transact, Framed;
    if call.action.DeleteDue? {
      DeleteDueKeepsRequests(cfg, db, call);
    } else {
      EveryActionFramed(cfg, db, call);
      OthersKeepDeadlines(call.action, db, Apply(cfg, db, call).db);
    }
  }

  lemma DeleteDueKeepsRequests(cfg: Config, db: DB, call: Call)
    requires call.action.DeleteDue?
    ensures Within(Apply(cfg, db, call).db.deletions, db.deletions)
  {
    hide *;
    Dispatched(cfg, db, call);
    DeleteDueDrops(db, call.now);
  }

  lemma OthersKeepDeadlines(action: Action, a: DB, b: DB)
    requires Framed(action, a, b) && !WritesDeletions(action)
    ensures b.deletions == a.deletions
  {
  }

  // ---------- the policy ----------

  /** The policy last accepted from the owner of the account since the last cancellation. */
  function Policy(cfg: Config, run: seq<Call>, x: Id): Option<bool> {
    if run == [] then None
    else
      var n := |run| - 1;
      if Transact(cfg, After(cfg, run[..n]), run[n].now, run[n].action).Ok? && Speaks(run[n].action, x) then Said(run[n].action)
      else Policy(cfg, run[..n], x)
  }

  /** The action is about the deletion of the account, at its owner's word. */
  predicate Speaks(a: Action, x: Id) {
    (a.RequestDeletion? || a.PatchDeletion? || a.CancelDeletion?) && a.who.Bearer? && a.who.account == x
  }

  function Said(a: Action): Option<bool> {
    match a
    case RequestDeletion(_, _, shared, _) => Some(shared)
    case PatchDeletion(_, shared) => Some(shared)
    case _ => None
  }

  lemma RequestSets(db: DB, now: Time, who: Principal, grant: Id, shared: bool, delay: int, x: Id)
    requires RequestDeletionTx(db, now, who, grant, shared, delay).Ok?
    ensures var b := RequestDeletionTx(db, now, who, grant, shared, delay).value.db;
      && who.Bearer? && (if who.account == x then x in b.deletions && b.deletions[x].shared == shared
                         else (x in b.deletions <==> x in db.deletions) && (x in db.deletions ==> b.deletions[x] == db.deletions[x]))
  {
    hide ConsumeGrant, HoldsGrant, Spendable, PurposePrincipal;
  }

  lemma PatchSets(db: DB, now: Time, who: Principal, shared: bool, x: Id)
    requires PatchDeletionTx(db, now, who, shared).Ok?
    ensures var b := PatchDeletionTx(db, now, who, shared).value.db;
      && who.Bearer? && (if who.account == x then x in b.deletions && b.deletions[x].shared == shared
                         else (x in b.deletions <==> x in db.deletions) && (x in db.deletions ==> b.deletions[x] == db.deletions[x]))
  {
    assert who.Bearer?;
    hide RecoveryPrincipal;
  }

  lemma CancelSets(db: DB, now: Time, who: Principal, x: Id)
    requires CancelDeletionTx(db, now, who).Ok?
    ensures who.Bearer?
    ensures var b := CancelDeletionTx(db, now, who).value.db;
      if who.account == x then x !in b.deletions
      else (x in b.deletions <==> x in db.deletions) && (x in db.deletions ==> b.deletions[x] == db.deletions[x])
  {
    var b := CancelDeletionTx(db, now, who).value.db;
    assert who.Bearer? && b.deletions == db.deletions - {who.account};
    hide CancelDeletionTx;
  }

  /** A request that stands after the call says what the call said of it, or is as it was. */
  ghost predicate Heard(a: map<Id, Deletion>, b: map<Id, Deletion>, action: Action, x: Id) {
    x in b ==> if Speaks(action, x) then Said(action) == Some(b[x].shared) else x in a && b[x].shared == a[x].shared
  }

  lemma SetsHear(db: DB, now: Time, who: Principal, grant: Id, shared: bool, delay: int, x: Id)
    ensures var r := RequestDeletionTx(db, now, who, grant, shared, delay);
      r.Ok? ==> Heard(db.deletions, r.value.db.deletions, RequestDeletion(who, grant, shared, delay), x)
    ensures var r := PatchDeletionTx(db, now, who, shared); r.Ok? ==> Heard(db.deletions, r.value.db.deletions, PatchDeletion(who, shared), x)
    ensures var r := CancelDeletionTx(db, now, who); r.Ok? ==> Heard(db.deletions, r.value.db.deletions, CancelDeletion(who), x)
  {
    hide RequestDeletionTx, PatchDeletionTx, CancelDeletionTx;
    if RequestDeletionTx(db, now, who, grant, shared, delay).Ok? {
      RequestSets(db, now, who, grant, shared, delay, x);
    }
    if PatchDeletionTx(db, now, who, shared).Ok? {
      PatchSets(db, now, who, shared, x);
    }
    if CancelDeletionTx(db, now, who).Ok? {
      CancelSets(db, now, who, x);
    }
  }

  lemma SilenceHears(cfg: Config, db: DB, call: Call, x: Id)
    requires !call.action.RequestDeletion? && !call.action.PatchDeletion? && !call.action.CancelDeletion?
    ensures Heard(db.deletions, Apply(cfg, db, call).db.deletions, call.action, x)
  {
    hide Apply;
    OthersKeepRequests(cfg, db, call);
  }

  lemma CommitsAreHeard(cfg: Config, db: DB, call: Call, x: Id)
    requires Transact(cfg, db, call.now, call.action).Ok?
    ensures Heard(db.deletions, Apply(cfg, db, call).db.deletions, call.action, x)
  {
    hide *;
    Dispatched(cfg, db, call);
    match call.action
    case RequestDeletion(who, grant, shared, delay) => SetsHear(db, call.now, who, grant, shared, delay, x);
    case PatchDeletion(who, shared) => SetsHear(db, call.now, who, 0, shared, 0, x);
    case CancelDeletion(who) => SetsHear(db, call.now, who, 0, false, 0, x);
    case _ => SilenceHears(cfg, db, call, x);
  }

  /** A standing request carries the policy last accepted. */
  lemma {:induction false} RequestCarriesPolicy(cfg: Config, run: seq<Call>, x: Id)
    requires x in After(cfg, run).deletions
    ensures Policy(cfg, run, x) == Some(After(cfg, run).deletions[x].shared)
  {
    hide Transact, Speaks, Said;
    assert run != [];
    var n := |run| - 1;
    var a, call := After(cfg, run[..n]), run[n];
    if Transact(cfg, a, call.now, call.action).Ok? {
      CommitsAreHeard(cfg, a, call, x);
    }
    if !(Transact(cfg, a, call.now, call.action).Ok? && Speaks(call.action, x)) {
      RequestCarriesPolicy(cfg, run[..n], x);
    }
  }

  /** DeleteDueAccount on a due account: the account with everything it owns, its event and its mail. */
  ghost predicate DeletedDue(a: DB, b: DB, x: Id, now: Time) {
    && Due(a.accounts, a.deletions, x, now)
    && b.accounts == a.accounts - {x}
    && b.outbox == a.outbox + [ProfileDeleted(x, a.deletions[x].shared), Mail(a.accounts[x].email, AccountDeleted, None)]
  }

  lemma DeleteDueExactly(db: DB, now: Time)
    ensures var due := NextDue(db.accounts, db.deletions, db.supply, now);
      if due.None? then DeleteDueTx(db, now) == Ok(Commit(db, Flag(false)))
      else DeleteDueTx(db, now).Ok? && DeleteDueTx(db, now).value.answer == Flag(true)
           && DeletedDue(db, DeleteDueTx(db, now).value.db, due.value, now)
  {
    hide NextDue, DropAccount;
    var due := NextDue(db.accounts, db.deletions, db.supply, now);
    if due.Some? {
      DropAccountExactly(Notify(Enqueue(db, ProfileDeleted(due.value, db.deletions[due.value].shared)), due.value, AccountDeleted), due.value);
    }
  }

  lemma DeleteDueCall(cfg: Config, db: DB, call: Call)
    requires call.action.DeleteDue?
    ensures var b, due := Apply(cfg, db, call).db, NextDue(db.accounts, db.deletions, db.supply, call.now);
      if due.None? then b == db else DeletedDue(db, b, due.value, call.now)
  {
    hide NextDue, DeleteDueTx, DeletedDue;
    DeleteDueExactly(db, call.now);
  }

  /** A deletion takes the account with the earliest due deadline and announces the policy last accepted; or nobody is due. */
  lemma DeletionCarriesPolicy(cfg: Config, run: seq<Call>, now: Time, n: nat)
    requires Ordered(run, now) && n < |run| && run[n].action.DeleteDue?
    ensures var a, b := After(cfg, run[..n]), Apply(cfg, After(cfg, run[..n]), run[n]).db;
      var due := NextDue(a.accounts, a.deletions, a.supply, run[n].now);
      && (due.None? ==> b == a && forall x :: !Due(a.accounts, a.deletions, x, run[n].now))
      && (due.Some? ==> DeletedDue(a, b, due.value, run[n].now) && Policy(cfg, run[..n], due.value) == Some(a.deletions[due.value].shared))
  {
    hide After, Policy, NextDue, Apply, Inv;
    var a := After(cfg, run[..n]);
    OrderedPrefix(run, now, n);
    Reachable(cfg, run[..n], run[n].now);
    NoneFoundNoneDue(cfg, a, run[n].now);
    DeleteDueCall(cfg, a, run[n]);
    var due := NextDue(a.accounts, a.deletions, a.supply, run[n].now);
    if due.Some? {
      RequestCarriesPolicy(cfg, run[..n], due.value);
    }
  }

  lemma NoneFoundNoneDue(cfg: Config, db: DB, now: Time)
    requires Inv(cfg, db, now)
    ensures NextDue(db.accounts, db.deletions, db.supply, now).None? ==> forall x :: !Due(db.accounts, db.deletions, x, now)
  {
    hide Core;
    assert forall x | x in db.accounts :: x < db.supply;
    hide Keys;
  }
}
