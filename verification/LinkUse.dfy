/** Mailed links over whole runs: the token of a link is effective at most once. */
module LinkUse {
  import opened Base
  import opened Secrets
  import opened Store
  import opened Answers
  import opened Processes
  import opened Challenges
  import opened Accounts
  import opened Mails
  import opened Protocol
  import opened Invariant
  import opened Frames
  import opened KeyActions
  import opened Reachability

  // ---------- links that change an address ----------

  /** The token was drawn, and no request waits for it. */
  ghost predicate ChangeLinkDead(changes: map<Id, EmailChangeRequest>, supply: Id, link: Id) {
    link < supply && forall x | x in changes :: changes[x].token != Digest(EmailChangeTag, 0, link)
  }

  /** A token is as old as its row, or just drawn. */
  ghost predicate ChangesDrawn(a: map<Id, EmailChangeRequest>, b: map<Id, EmailChangeRequest>, supply: Id) {
    forall x | x in b :: (x in a && b[x].token == a[x].token) || b[x].token.value >= supply
  }

  lemma DeadChangeLinkStaysDead(a: map<Id, EmailChangeRequest>, b: map<Id, EmailChangeRequest>, n: Id, m: Id, link: Id)
    requires ChangeLinkDead(a, n, link) && ChangesDrawn(a, b, n) && n <= m
    ensures ChangeLinkDead(b, m, link)
  {
  }

  lemma ConfirmEmailDraws(db: DB, now: Time, link: Id, baseOk: bool)
    requires ChangesOk(db.changes, db.supply)
    ensures ChangesDrawn(db.changes, Settle(db, ConfirmEmailTx(db, now, link, baseOk)).db.changes, db.supply)
  {
    hide ChangesOk;
    if ConfirmEmailTx(db, now, link, baseOk).Ok? {
      ConfirmEmailDecides(db, now, link, baseOk);
      hide ConfirmEmailTx, Movable, Changing;
      var x := Changing(db, now, link).value;
      MovedChanges(db, x, now);
    }
  }

  lemma MovedChanges(db: DB, x: Id, now: Time)
    requires x in db.changes
    ensures x in db.accounts ==> Invalidate(MoveAddress(db, x), x, now).changes == db.changes - {x}
    ensures var b := AskNewAddress(db, x, now);
      && b.changes == db.changes[x := b.changes[x]] && b.changes[x].token == Digest(EmailChangeTag, 0, db.supply)
      && b.supply == db.supply + 1
  {
    hide InvalidateRow;
  }

  lemma ChangesDraw(cfg: Config, db: DB, call: Call)
    requires ChangesOk(db.changes, db.supply) && AccountsOk(db.accounts, db.supply)
    ensures ChangesDrawn(db.changes, Apply(cfg, db, call).db.changes, db.supply) && db.supply <= Apply(cfg, db, call).db.supply
  {
    hide *;
    Dispatched(cfg, db, call);
    OtherChangesDraw(cfg, db, call);
    match call.action
    case ChangeEmail(who, grant, email, baseOk) => ChangeEmailDraws(cfg, db, call.now, who, grant, email, baseOk);
    case ConfirmEmail(link, baseOk) => ConfirmEmailDraws(db, call.now, link, baseOk);
    case _ =>
  }

  lemma ChangeEmailDraws(cfg: Config, db: DB, now: Time, who: Principal, grant: Id, email: string, baseOk: bool)
    requires AccountsOk(db.accounts, db.supply)
    ensures ChangesDrawn(db.changes, Settle(db, ChangeEmailTx(cfg, db, now, who, grant, email, baseOk)).db.changes, db.supply)
  {
    hide ChangeEmailTx, AccountsOk;
    if ChangeEmailTx(cfg, db, now, who, grant, email, baseOk).Ok? {
      ChangeEmailIssues(cfg, db, now, who, grant, email, baseOk);
    }
  }

  lemma OtherChangesDraw(cfg: Config, db: DB, call: Call)
    ensures db.supply <= Apply(cfg, db, call).db.supply
    ensures !call.action.ChangeEmail? && !call.action.ConfirmEmail? ==> ChangesDrawn(db.changes, Apply(cfg, db, call).db.changes, db.supply)
  {
    hide Apply;
    EveryActionFramed(cfg, db, call);
    if Drops(call.action) {
      DropsShrink(cfg, db, call);
    }
  }

  lemma {:induction false} DeadChangeLinkOverRun(cfg: Config, db: DB, clock: Time, run: seq<Call>, now: Time, link: Id)
    requires Inv(cfg, db, clock) && Follows(clock, run, now) && ChangeLinkDead(db.changes, db.supply, link)
    ensures ChangeLinkDead(RunFrom(cfg, db, run).changes, RunFrom(cfg, db, run).supply, link)
    decreases |run|
  {
    hide Inv, Apply, ChangeLinkDead, ChangesDrawn, ChangesOk, AccountsOk;
    if run != [] {
      var n := |run| - 1;
      var d := RunFrom(cfg, db, run[..n]);
      FollowsPrefix(clock, run, now);
      DeadChangeLinkOverRun(cfg, db, clock, run[..n], run[n].now, link);
      InvThroughout(cfg, db, clock, run[..n], run[n].now);
      InvLinks(cfg, d, run[n].now);
      ChangesDraw(cfg, d, run[n]);
      var e := Apply(cfg, d, run[n]).db;
      DeadChangeLinkStaysDead(d.changes, e.changes, d.supply, e.supply, link);
    }
  }

  lemma InvLinks(cfg: Config, db: DB, clock: Time)
    requires Inv(cfg, db, clock)
    ensures ChangesOk(db.changes, db.supply) && AccountsOk(db.accounts, db.supply) && ResetsOk(db.resets, db.supply)
  {
    hide Core, ChangesOk, AccountsOk, ResetsOk;
  }

  /** The call commits on the strength of the link. */
  ghost predicate FollowsChangeLink(db: DB, call: Call, link: Id) {
    && call.action.ConfirmEmail? && call.action.link == link && ConfirmEmailTx(db, call.now, link, call.action.baseOk).Ok?
  }

  lemma FollowedIsDead(cfg: Config, db: DB, call: Call, link: Id)
    requires ChangesOk(db.changes, db.supply) && FollowsChangeLink(db, call, link)
    ensures ChangeLinkDead(Apply(cfg, db, call).db.changes, Apply(cfg, db, call).db.supply, link)
  {
    hide *;
    Dispatched(cfg, db, call);
    ConfirmedIsDead(db, call, link);
  }

  lemma ConfirmedIsDead(db: DB, call: Call, link: Id)
    requires ChangesOk(db.changes, db.supply) && FollowsChangeLink(db, call, link)
    ensures call.action.ConfirmEmail? && call.action.link == link
    ensures var b := Settle(db, ConfirmEmailTx(db, call.now, link, call.action.baseOk)).db; ChangeLinkDead(b.changes, b.supply, link)
  {
    hide ConfirmEmailTx, EmailTaken, ChangeByToken, MoveAddress, AskNewAddress, Invalidate;
    ConfirmEmailDecides(db, call.now, link, call.action.baseOk);
    var x := Changing(db, call.now, link).value;
    MovedChanges(db, x, call.now);
    OnlyRow(db.changes, db.supply, x, link);
    if db.changes[x].stage == AwaitingNew {
      MovedSupply(db, x, call.now);
    }
  }

  // The row of a link is the only one, so without it, or under a new token, the link is dead.
  lemma OnlyRow(changes: map<Id, EmailChangeRequest>, supply: Id, x: Id, link: Id)
    requires ChangesOk(changes, supply) && x in changes && changes[x].token == Digest(EmailChangeTag, 0, link)
    ensures ChangeLinkDead(changes - {x}, supply, link)
    ensures forall row: EmailChangeRequest | row.token == Digest(EmailChangeTag, 0, supply) :: ChangeLinkDead(changes[x := row], supply + 1, link)
  {
  }

  lemma MovedSupply(db: DB, x: Id, now: Time)
    requires x in db.changes && x in db.accounts
    ensures Invalidate(MoveAddress(db, x), x, now).supply == db.supply
  {
  }

  /** Over any run a link that changes an address is effective at most once: the tokens of the two stages differ. */
  lemma ChangeLinkUsedOnce(cfg: Config, run: seq<Call>, now: Time, i: nat, j: nat, link: Id)
    requires Ordered(run, now) && i < j < |run| && FollowsChangeLink(After(cfg, run[..i]), run[i], link)
    ensures !FollowsChangeLink(After(cfg, run[..j]), run[j], link)
  {
    hide Inv, Apply, After, ChangeLinkDead, FollowsChangeLink, ChangesOk, AccountsOk, ResetsOk;
    RunBetween(cfg, run, now, i, j);
    InvLinks(cfg, After(cfg, run[..i]), run[i].now);
    FollowedIsDead(cfg, After(cfg, run[..i]), run[i], link);
    DeadChangeLinkOverRun(cfg, After(cfg, run[..i + 1]), run[i].now, run[i + 1..j], run[j].now, link);
    DeadChangeLinkIsRefused(After(cfg, run[..j]), run[j], link);
  }

  lemma DeadChangeLinkIsRefused(db: DB, call: Call, link: Id)
    requires ChangeLinkDead(db.changes, db.supply, link)
    ensures !FollowsChangeLink(db, call, link)
  {
    hide AskNewAddress, MoveAddress, Invalidate, EmailTaken;
  }

  // ---------- links that reset a password ----------

  ghost predicate ResetLinkDead(resets: map<Id, ResetRequest>, supply: Id, link: Id) {
    link < supply && forall x | x in resets :: resets[x].token != Digest(ResetTag, 0, link)
  }

  ghost predicate ResetsDrawn(a: map<Id, ResetRequest>, b: map<Id, ResetRequest>, supply: Id) {
    forall x | x in b :: (x in a && b[x].token == a[x].token) || b[x].token.value >= supply
  }

  lemma DeadResetLinkStaysDead(a: map<Id, ResetRequest>, b: map<Id, ResetRequest>, n: Id, m: Id, link: Id)
    requires ResetLinkDead(a, n, link) && ResetsDrawn(a, b, n) && n <= m
    ensures ResetLinkDead(b, m, link)
  {
  }

  lemma StartResetDraws(cfg: Config, db: DB, now: Time, email: string, baseOk: bool)
    ensures ResetsDrawn(db.resets, Settle(db, StartPasswordResetTx(cfg, db, now, email, baseOk)).db.resets, db.supply)
  {
    hide AccountByEmail;
  }

  lemma ResetsDraw(cfg: Config, db: DB, call: Call)
    ensures ResetsDrawn(db.resets, Apply(cfg, db, call).db.resets, db.supply) && db.supply <= Apply(cfg, db, call).db.supply
  {
    hide *;
    Dispatched(cfg, db, call);
    OtherResetsDraw(cfg, db, call);
    match call.action
    case StartPasswordReset(email, baseOk) => StartResetDraws(cfg, db, call.now, email, baseOk);
    case _ =>
  }

  lemma OtherResetsDraw(cfg: Config, db: DB, call: Call)
    ensures db.supply <= Apply(cfg, db, call).db.supply
    ensures !call.action.StartPasswordReset? ==> ResetsDrawn(db.resets, Apply(cfg, db, call).db.resets, db.supply)
  {
    hide Apply;
    EveryActionFramed(cfg, db, call);
    if Drops(call.action) {
      DropsShrink(cfg, db, call);
    }
  }

  lemma {:induction false} DeadResetLinkOverRun(cfg: Config, db: DB, run: seq<Call>, link: Id)
    requires ResetLinkDead(db.resets, db.supply, link)
    ensures ResetLinkDead(RunFrom(cfg, db, run).resets, RunFrom(cfg, db, run).supply, link)
    decreases |run|
  {
    hide Apply, ResetLinkDead, ResetsDrawn;
    if run != [] {
      var n := |run| - 1;
      var d := RunFrom(cfg, db, run[..n]);
      DeadResetLinkOverRun(cfg, db, run[..n], link);
      ResetsDraw(cfg, d, run[n]);
      var e := Apply(cfg, d, run[n]).db;
      DeadResetLinkStaysDead(d.resets, e.resets, d.supply, e.supply, link);
    }
  }

  ghost predicate FollowsResetLink(db: DB, call: Call, link: Id) {
    && call.action.ConfirmPasswordReset? && call.action.link == link && ConfirmPasswordResetTx(db, call.now, link, call.action.password).Ok?
  }

  lemma ResetIsDead(cfg: Config, db: DB, call: Call, link: Id)
    requires ResetsOk(db.resets, db.supply) && FollowsResetLink(db, call, link)
    ensures ResetLinkDead(Apply(cfg, db, call).db.resets, Apply(cfg, db, call).db.supply, link)
  {
    hide *;
    Dispatched(cfg, db, call);
    OtherResetsDraw(cfg, db, call);
    ReplacedIsDead(db, call, link);
  }

  lemma ReplacedIsDead(db: DB, call: Call, link: Id)
    requires ResetsOk(db.resets, db.supply) && FollowsResetLink(db, call, link)
    ensures call.action.ConfirmPasswordReset? && call.action.link == link
    ensures var b := Settle(db, ConfirmPasswordResetTx(db, call.now, link, call.action.password)).db; ResetLinkDead(b.resets, b.supply, link)
  {
    hide ReplacePassword, AcceptablePassword;
    var x := ResetByToken(db.resets, db.supply, Digest(ResetTag, 0, link)).value;
    hide ResetByToken;
    ReplaceKeepsResets(db.(resets := db.resets - {x}), call.now, x, call.action.password);
  }

  lemma ReplaceKeepsResets(db: DB, now: Time, account: Id, password: Store.Password)
    requires account in db.accounts
    ensures var r := ReplacePassword(db, now, account, password, {}); r.Ok? && r.value.db.resets == db.resets && db.supply <= r.value.db.supply
  {
  }

  /** Over any run a link that resets a password is effective at most once. */
  lemma ResetLinkUsedOnce(cfg: Config, run: seq<Call>, now: Time, i: nat, j: nat, link: Id)
    requires Ordered(run, now) && i < j < |run| && FollowsResetLink(After(cfg, run[..i]), run[i], link)
    ensures !FollowsResetLink(After(cfg, run[..j]), run[j], link)
  {
    hide Inv, Apply, After, ResetLinkDead, FollowsResetLink, ChangesOk, AccountsOk, ResetsOk;
    RunBetween(cfg, run, now, i, j);
    InvLinks(cfg, After(cfg, run[..i]), run[i].now);
    ResetIsDead(cfg, After(cfg, run[..i]), run[i], link);
    DeadResetLinkOverRun(cfg, After(cfg, run[..i + 1]), run[i + 1..j], link);
    DeadResetLinkIsRefused(After(cfg, run[..j]), run[j], link);
  }

  lemma DeadResetLinkIsRefused(db: DB, call: Call, link: Id)
    requires ResetLinkDead(db.resets, db.supply, link)
    ensures !FollowsResetLink(db, call, link)
  {
    hide ReplacePassword, AcceptablePassword;
  }
}
