/** An address changes only in two stages: a grant, a token to the old address, another to the new one. */
module EmailChanges {
  import opened Base
  import opened Secrets
  import opened Store
  import opened Processes
  import opened Challenges
  import opened Accounts
  import opened Mails
  import opened Protocol
  import opened Invariant
  import opened Frames
  import opened KeyActions
  import opened Reachability
  import opened Grants
  import opened Registrations

  // ---------- where a request comes from ----------

  /** The call asks to move the account x to row.email: a grant-authorised request, and a token to the present address. */
  ghost predicate AsksNow(cfg: Config, db: DB, call: Call, x: Id, row: EmailChangeRequest) {
    && call.action.ChangeEmail? && call.action.who.Bearer? && call.action.who.account == x
    && Spends(cfg, db, call, call.action.grant)
    && x in db.accounts && row.previous == db.accounts[x].email && row.email == cfg.normalize(call.action.email)
    && Apply(cfg, db, call).db.outbox == db.outbox + [Mail(row.previous, EmailChangePrevious, Some(db.supply))]
  }

  /** The call presents the live token of the old address and has another sent to the new one. */
  ghost predicate ForwardsNow(cfg: Config, db: DB, call: Call, x: Id, row: EmailChangeRequest) {
    && call.action.ConfirmEmail? && x in db.changes && db.changes[x].stage == AwaitingPrevious && db.changes[x].expires > call.now
    && db.changes[x].token == Digest(EmailChangeTag, 0, call.action.link)
    && row.previous == db.changes[x].previous && row.email == db.changes[x].email
    && Apply(cfg, db, call).db.outbox == db.outbox + [Mail(row.email, EmailChangeNew, Some(db.supply))]
  }

  lemma AskedRow(cfg: Config, db: DB, now: Time, who: Principal, grant: Id, email: string, baseOk: bool)
    requires ChangeEmailTx(cfg, db, now, who, grant, email, baseOk).Ok?
    ensures who.Bearer? && who.account in db.accounts
    ensures var b, x := ChangeEmailTx(cfg, db, now, who, grant, email, baseOk).value.db, who.account;
      var previous := db.accounts[x].email;
      && x !in db.changes
      && b.changes == db.changes[x := EmailChangeRequest(previous, cfg.normalize(email), AwaitingPrevious,
                                                        Digest(EmailChangeTag, 0, db.supply), now + LINK_TTL)]
      && b.outbox == db.outbox + [Mail(previous, EmailChangePrevious, Some(db.supply))]
  {
    hide ConsumeGrant, HoldsGrant, Spendable;
  }

  /** How a request came to be in the state after the call. */
  ghost predicate Origin(cfg: Config, db: DB, call: Call, x: Id) {
    var b := Apply(cfg, db, call).db;
    && x in b.changes
    && var row := b.changes[x];
      || (x in db.changes && row == db.changes[x])
      || (AsksNow(cfg, db, call, x, row) && row.stage == AwaitingPrevious && row.token == Digest(EmailChangeTag, 0, db.supply))
      || (ForwardsNow(cfg, db, call, x, row) && row.stage == AwaitingNew && row.token == Digest(EmailChangeTag, 0, db.supply))
  }

  lemma ChangeEmailOrigin(cfg: Config, db: DB, call: Call, x: Id)
    requires call.action.ChangeEmail? && x in Apply(cfg, db, call).db.changes
    ensures Origin(cfg, db, call, x)
  {
    hide ChangeEmailTx;
    var ChangeEmail(who, grant, email, baseOk) := call.action;
    if Transact(cfg, db, call.now, call.action).Ok? {
      AskedRow(cfg, db, call.now, who, grant, email, baseOk);
    }
  }

  lemma ForwardedRow(db: DB, now: Time, link: Id, baseOk: bool)
    requires ConfirmEmailTx(db, now, link, baseOk).Ok?
    ensures Changing(db, now, link).Some?
    ensures var b, x := ConfirmEmailTx(db, now, link, baseOk).value.db, Changing(db, now, link).value;
      if db.changes[x].stage == AwaitingPrevious then
        && b.changes == db.changes[x := db.changes[x].(stage := AwaitingNew, token := Digest(EmailChangeTag, 0, db.supply), expires := now + LINK_TTL)]
        && b.outbox == db.outbox + [Mail(db.changes[x].email, EmailChangeNew, Some(db.supply))]
        && b.accounts == db.accounts
      else
        && b.changes == db.changes - {x} && x in db.accounts && db.accounts[x].email == db.changes[x].previous
        && b.accounts == db.accounts[x := db.accounts[x].(email := db.changes[x].email)]
  {
    ConfirmEmailDecides(db, now, link, baseOk);
    hide ConfirmEmailTx, Changing, EmailTaken, InvalidateRow;
  }

  lemma ConfirmEmailOrigin(cfg: Config, db: DB, call: Call, x: Id)
    requires call.action.ConfirmEmail? && x in Apply(cfg, db, call).db.changes
    ensures Origin(cfg, db, call, x)
  {
    hide ConfirmEmailTx;
    if Transact(cfg, db, call.now, call.action).Ok? {
      ForwardedRow(db, call.now, call.action.link, call.action.baseOk);
    }
  }

  lemma EveryRowHasOrigin(cfg: Config, db: DB, call: Call, x: Id)
    requires x in Apply(cfg, db, call).db.changes
    ensures Origin(cfg, db, call, x)
  {
    hide Transact;
    if call.action.ChangeEmail? {
      ChangeEmailOrigin(cfg, db, call, x);
      hide *;
    } else if call.action.ConfirmEmail? {
      ConfirmEmailOrigin(cfg, db, call, x);
      hide *;
    } else {
      hide Transact, AsksNow, ForwardsNow;
      if Drops(call.action) {
        DropsShrink(cfg, db, call);
      } else {
        EveryActionFramed(cfg, db, call);
      }
    }
  }

  // ---------- the history of a request ----------

  /** The token drawn by step i of the run. */
  function TokenAt(cfg: Config, run: seq<Call>, i: nat): Id {
    if i <= |run| then After(cfg, run[..i]).supply else 0
  }

  /** Step i of the run asked for the change; its token is the number drawn then. */
  ghost predicate AskedAt(cfg: Config, run: seq<Call>, i: nat, x: Id, row: EmailChangeRequest) {
    i < |run| && AsksNow(cfg, After(cfg, run[..i]), run[i], x, row)
  }

  /** Step j, later, presented the token of step i and forwarded the change. */
  ghost predicate ForwardedAt(cfg: Config, run: seq<Call>, i: nat, j: nat, x: Id, row: EmailChangeRequest) {
    && AskedAt(cfg, run, i, x, row) && i < j < |run|
    && ForwardsNow(cfg, After(cfg, run[..j]), run[j], x, row)
    && run[j].action.link == TokenAt(cfg, run, i)
  }

  /** What a standing request says of the past. */
  ghost predicate History(cfg: Config, run: seq<Call>, x: Id, row: EmailChangeRequest) {
    if row.stage == AwaitingPrevious then
      exists i: nat :: AskedAt(cfg, run, i, x, row) && row.token == Digest(EmailChangeTag, 0, TokenAt(cfg, run, i))
    else
      exists i: nat, j: nat :: ForwardedAt(cfg, run, i, j, x, row) && row.token == Digest(EmailChangeTag, 0, TokenAt(cfg, run, j))
  }

  lemma AskedEarlier(cfg: Config, run: seq<Call>, i: nat, x: Id, row: EmailChangeRequest, row': EmailChangeRequest)
    requires run != [] && AskedAt(cfg, run[..|run| - 1], i, x, row) && row'.previous == row.previous && row'.email == row.email
    ensures AskedAt(cfg, run, i, x, row') && TokenAt(cfg, run, i) == TokenAt(cfg, run[..|run| - 1], i) && i < |run| - 1
  {
    hide After, Apply, Spends;
    assert run[..|run| - 1][..i] == run[..i];
  }

  lemma ForwardedEarlier(cfg: Config, run: seq<Call>, i: nat, j: nat, x: Id, row: EmailChangeRequest)
    requires run != [] && ForwardedAt(cfg, run[..|run| - 1], i, j, x, row)
    ensures ForwardedAt(cfg, run, i, j, x, row) && TokenAt(cfg, run, j) == TokenAt(cfg, run[..|run| - 1], j)
  {
    hide After, AsksNow, ForwardsNow;
    AskedEarlier(cfg, run, i, x, row, row);
    assert run[..|run| - 1][..j] == run[..j];
  }

  lemma HistoryGrows(cfg: Config, run: seq<Call>, x: Id, row: EmailChangeRequest)
    requires run != [] && History(cfg, run[..|run| - 1], x, row)
    ensures History(cfg, run, x, row)
  {
    hide After, AskedAt, ForwardedAt;
    var m := run[..|run| - 1];
    if row.stage == AwaitingPrevious {
      var i: nat :| AskedAt(cfg, m, i, x, row) && row.token == Digest(EmailChangeTag, 0, TokenAt(cfg, m, i));
      AskedEarlier(cfg, run, i, x, row, row);
    } else {
      var i: nat, j: nat :| ForwardedAt(cfg, m, i, j, x, row) && row.token == Digest(EmailChangeTag, 0, TokenAt(cfg, m, j));
      ForwardedEarlier(cfg, run, i, j, x, row);
    }
  }

  lemma HistoryForwards(cfg: Config, run: seq<Call>, x: Id, row: EmailChangeRequest, row': EmailChangeRequest)
    requires run != []
    requires var db := After(cfg, run[..|run| - 1]);
      && x in db.changes && db.changes[x] == row && row.stage == AwaitingPrevious && History(cfg, run[..|run| - 1], x, row)
      && ForwardsNow(cfg, db, run[|run| - 1], x, row') && row'.token == Digest(EmailChangeTag, 0, db.supply) && row'.stage == AwaitingNew
    ensures History(cfg, run, x, row')
  {
    hide After, AskedAt, Apply;
    var n := |run| - 1;
    var m := run[..n];
    var i: nat :| AskedAt(cfg, m, i, x, row) && row.token == Digest(EmailChangeTag, 0, TokenAt(cfg, m, i));
    AskedEarlier(cfg, run, i, x, row, row');
    assert ForwardedAt(cfg, run, i, n, x, row');
  }

  /** Every standing request has its history, after every run. */
  lemma {:induction false} RequestsHaveHistory(cfg: Config, run: seq<Call>, x: Id)
    requires x in After(cfg, run).changes
    ensures History(cfg, run, x, After(cfg, run).changes[x])
  {
    hide Transact;
    assert run != [];
    var n := |run| - 1;
    var a, b, call := After(cfg, run[..n]), After(cfg, run), run[n];
    assert b == Apply(cfg, a, call).db;
    EveryRowHasOrigin(cfg, a, call, x);
    var row := b.changes[x];
    hide Apply, After, AsksNow, ForwardsNow, History;
    if x in a.changes && row == a.changes[x] {
      RequestsHaveHistory(cfg, run[..n], x);
      HistoryGrows(cfg, run, x, row);
    } else if AsksNow(cfg, a, call, x, row) && row.stage == AwaitingPrevious {
      HistoryStarts(cfg, run, x, row);
    } else {
      StandingBefore(cfg, a, call, x, row);
      RequestsHaveHistory(cfg, run[..n], x);
      HistoryForwards(cfg, run, x, a.changes[x], row);
    }
  }

  lemma HistoryStarts(cfg: Config, run: seq<Call>, x: Id, row: EmailChangeRequest)
    requires run != [] && AsksNow(cfg, After(cfg, run[..|run| - 1]), run[|run| - 1], x, row)
    requires row.stage == AwaitingPrevious && row.token == Digest(EmailChangeTag, 0, After(cfg, run[..|run| - 1]).supply)
    ensures History(cfg, run, x, row)
  {
    hide After, Apply, Transact;
    assert AskedAt(cfg, run, |run| - 1, x, row);
  }

  lemma StandingBefore(cfg: Config, db: DB, call: Call, x: Id, row: EmailChangeRequest)
    requires ForwardsNow(cfg, db, call, x, row)
    ensures x in db.changes && db.changes[x].stage == AwaitingPrevious
  {
    hide Transact;

  }

  // ---------- the change itself ----------

  lemma AddressMoves(cfg: Config, db: DB, clock: Time, call: Call, x: Id)
    requires Core(cfg, db, clock) && clock <= call.now && AccountsOk(db.accounts, db.supply)
    requires x in db.accounts && x in Apply(cfg, db, call).db.accounts && Apply(cfg, db, call).db.accounts[x].email != db.accounts[x].email
    ensures call.action.ConfirmEmail? && x in db.changes
    ensures var row := db.changes[x];
      && row.stage == AwaitingNew && row.expires > call.now && row.token == Digest(EmailChangeTag, 0, call.action.link)
      && db.accounts[x].email == row.previous && Apply(cfg, db, call).db.accounts[x].email == row.email
  {
    hide Core, AttemptTx, DeleteDueTx, ConfirmEmailTx, DoneKinds, EmailTaken, Changing;
    if call.action.Attempt? {
      KeptByAttempt(cfg, db, clock, call, x);
    } else if call.action.DeleteDue? {
      DeleteDueDrops(db, call.now);
    } else if call.action.ConfirmEmail? {
      if Transact(cfg, db, call.now, call.action).Ok? {
        ForwardedRow(db, call.now, call.action.link, call.action.baseOk);
      }
    } else {
      hide Transact;
      ManyKeepEmails(cfg, db, call);
    }
  }

  lemma KeptByAttempt(cfg: Config, db: DB, clock: Time, call: Call, x: Id)
    requires Core(cfg, db, clock) && clock <= call.now && call.action.Attempt? && AccountsOk(db.accounts, db.supply)
    requires x in db.accounts
    ensures x in Apply(cfg, db, call).db.accounts && Apply(cfg, db, call).db.accounts[x] == db.accounts[x]
  {
    hide Core, AttemptTx, DoneKinds, EmailTaken, HolderOf;
    var Attempt(id, cid, flow, who, proof) := call.action;
    AttemptAccounts(cfg, db, clock, call.now, id, cid, flow, who, proof);
  }

  /** Over every run an address moves from one to another only by presenting the token mailed to the new one, after the token
      mailed to the old one was presented, after a grant-authorised request; and it is still the old one when it moves. */
  lemma AddressesMoveInTwoStages(cfg: Config, run: seq<Call>, now: Time, n: nat, x: Id)
    requires Ordered(run, now) && n < |run|
    requires var a, b := After(cfg, run[..n]), Apply(cfg, After(cfg, run[..n]), run[n]).db;
      x in a.accounts && x in b.accounts && b.accounts[x].email != a.accounts[x].email
    ensures var a, b := After(cfg, run[..n]), Apply(cfg, After(cfg, run[..n]), run[n]).db;
      && run[n].action.ConfirmEmail? && x in a.changes && a.changes[x].expires > run[n].now
      && a.accounts[x].email == a.changes[x].previous && b.accounts[x].email == a.changes[x].email
      && exists i: nat, j: nat :: ForwardedAt(cfg, run[..n], i, j, x, a.changes[x]) && run[n].action.link == TokenAt(cfg, run[..n], j)
  {
    hide Apply, After, Inv, Core, ForwardedAt, AskedAt;
    var a := After(cfg, run[..n]);
    OrderedPrefix(run, now, n);
    Reachable(cfg, run[..n], run[n].now);
    InvParts(cfg, a, run[n].now);
    AddressMoves(cfg, a, run[n].now, run[n], x);
    RequestsHaveHistory(cfg, run[..n], x);
  }

  lemma InvParts(cfg: Config, db: DB, clock: Time)
    requires Inv(cfg, db, clock)
    ensures Core(cfg, db, clock) && AccountsOk(db.accounts, db.supply)
  {
    hide Core, AccountsOk;
  }
}
