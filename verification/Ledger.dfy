/** Lifecycle events: the outbox is a faithful ledger of the accounts. */
module Ledger {
  import opened Base
  import opened Secrets
  import opened Store
  import opened Answers
  import opened Processes
  import opened Challenges
  import opened Accounts
  import opened Sessions
  import opened Mails
  import opened Protocol
  import opened Invariant
  import opened Frames
  import opened KeyActions
  import opened Reachability
  import opened Registrations

  // ---------- what each transaction appends ----------

  /** Only mail was appended. */
  predicate MailsOnly(a: seq<Message>, b: seq<Message>) {
    a <= b && forall k | |a| <= k < |b| :: b[k].Mail?
  }

  lemma OneMail(a: seq<Message>, m: Message)
    requires m.Mail?
    ensures MailsOnly(a, a) && MailsOnly(a, a + [m])
  {
  }

  lemma FillStepMails(cfg: Config, d: DB, id: Id, cid: Id, step: Step, flow: Id, options: OAuthOptions, code: Id, libraryOk: bool)
    ensures MailsOnly(d.outbox, Settle(d, FillStep(cfg, d, id, cid, step, flow, options, code, libraryOk)).db.outbox)
  {
    hide CreateOAuth, MailsOnly;
    OneMail(d.outbox, Mail(if id in d.signups then d.signups[id].email else "", RegistrationCode, Some(code)));
    if IsProvider(step.kind) {
      FrameCreateOAuth(cfg, d, cid, step, flow, options, libraryOk);
    }
  }

  lemma CreateChallengeMails(cfg: Config, db: DB, now: Time, id: Id, flow: Id, kind: Kind, who: Principal, options: OAuthOptions, code: Id,
                             libraryOk: bool)
    ensures MailsOnly(db.outbox, Settle(db, CreateChallengeTx(cfg, db, now, id, flow, kind, who, options, code, libraryOk)).db.outbox)
  {
    hide Load, Next, CancelPending, FillStep, Earlier;
    var r := Load(db, now, id, flow, who);
    if r.Ok? {
      var step := Step(id, kind, Pending, 0, Earlier(now + cfg.challengeTTL, r.value.expires), None, NoDetail);
      FillStepMails(cfg, AddStep(db, id, step), id, db.supply, step, flow, options, code, libraryOk);
    }
  }

  lemma ReplacePasswordMails(db: DB, now: Time, account: Id, password: Store.Password, keep: set<Id>)
    requires account in db.accounts
    ensures MailsOnly(db.outbox, Settle(db, ReplacePassword(db, now, account, password, keep)).db.outbox)
  {
    hide WithoutSessionOrphans, InvalidateRow, SessionsOf;
    var d := Notify(Invalidate(StorePassword(db, account, password), account, now), account, PasswordChanged);
    assert MailsOnly(db.outbox, d.outbox);
    OrphansMailNothing(d, SessionsOf(d, account) - keep);
    hide DropSessions;
  }

  lemma OrphansMailNothing(db: DB, gone: set<Id>)
    ensures DropSessions(db, gone).outbox == db.outbox
  {
  }

  lemma SetPasswordMails(cfg: Config, db: DB, now: Time, who: Principal, grant: Id, password: Store.Password)
    ensures MailsOnly(db.outbox, Settle(db, SetPasswordTx(cfg, db, now, who, grant, password)).db.outbox)
  {
    hide ReplacePassword, ConsumeGrant, HoldsGrant, Spendable, MailsOnly;
    OneMail(db.outbox, Mail("", PasswordChanged, None));
    if SetPasswordTx(cfg, db, now, who, grant, password).Ok? {
      if db.accounts[who.account].password.None? {
        ReplacePasswordMails(db, now, who.account, password, {who.session});
      } else {
        ReplacePasswordMails(ConsumeGrant(db, now, grant, PasswordChange, who).value.db, now, who.account, password, {who.session});
      }
    }
  }

  lemma ConfirmResetMails(db: DB, now: Time, link: Id, password: Store.Password)
    ensures MailsOnly(db.outbox, Settle(db, ConfirmPasswordResetTx(db, now, link, password)).db.outbox)
  {
    hide ReplacePassword, ResetByToken, MailsOnly;
    OneMail(db.outbox, Mail("", PasswordChanged, None));
    if ConfirmPasswordResetTx(db, now, link, password).Ok? {
      var a := ResetByToken(db.resets, db.supply, Digest(ResetTag, 0, link)).value;
      ReplacePasswordMails(db.(resets := db.resets - {a}), now, a, password, {});
    }
  }

  lemma SetUsernameMails(cfg: Config, db: DB, now: Time, who: Principal, username: string)
    ensures MailsOnly(db.outbox, Settle(db, SetUsernameTx(cfg, db, now, who, username)).db.outbox)
  {
    hide ValidUsername, UsernameTaken, MailsOnly;
    OneMail(db.outbox, Mail("", UsernameChanged, None));
    if SetUsernameTx(cfg, db, now, who, username).Ok? {
      OneMail(db.outbox, Mail(db.accounts[who.account].email, UsernameChanged, None));
    }
  }

  lemma RequestDeletionMails(db: DB, now: Time, who: Principal, grant: Id, shared: bool, delay: int)
    ensures MailsOnly(db.outbox, Settle(db, RequestDeletionTx(db, now, who, grant, shared, delay)).db.outbox)
  {
    hide ConsumeGrant, HoldsGrant, Spendable;
  }

  lemma CreateSessionMails(db: DB, now: Time, grant: Id, ttl: int)
    ensures MailsOnly(db.outbox, Settle(db, CreateSessionTx(db, now, grant, ttl)).db.outbox)
  {
    hide ConsumeGrant, ProcByGrant, HoldsGrant, Spendable, Issue;
  }

  lemma ResetMails(cfg: Config, db: DB, now: Time, email: string, baseOk: bool)
    ensures MailsOnly(db.outbox, Settle(db, StartPasswordResetTx(cfg, db, now, email, baseOk)).db.outbox)
  {
    hide AccountByEmail, MailsOnly;
    OneMail(db.outbox, Mail(cfg.normalize(email), PasswordReset, Some(db.supply)));
  }

  lemma ChangeEmailMails(cfg: Config, db: DB, now: Time, who: Principal, grant: Id, email: string, baseOk: bool)
    ensures MailsOnly(db.outbox, Settle(db, ChangeEmailTx(cfg, db, now, who, grant, email, baseOk)).db.outbox)
  {
    hide ConsumeGrant, HoldsGrant, Spendable, PurposePrincipal, MailsOnly;
    OneMail(db.outbox, Mail("", EmailChangePrevious, None));
    if ChangeEmailTx(cfg, db, now, who, grant, email, baseOk).Ok? {
      OneMail(db.outbox, Mail(db.accounts[who.account].email, EmailChangePrevious, Some(db.supply)));
    }
  }

  lemma ConfirmEmailMails(db: DB, now: Time, link: Id, baseOk: bool)
    ensures MailsOnly(db.outbox, Settle(db, ConfirmEmailTx(db, now, link, baseOk)).db.outbox)
  {
    hide ChangeByToken, EmailTaken, MailsOnly, AskNewAddress, MoveAddress, Invalidate;
    OneMail(db.outbox, Mail("", EmailChangeNew, None));
    if ConfirmEmailTx(db, now, link, baseOk).Ok? {
      var a := ChangeByToken(db.changes, db.supply, Digest(EmailChangeTag, 0, link)).value;
      if db.changes[a].stage == AwaitingPrevious {
        AskMails(db, a, now);
      } else {
        MoveMails(db, a, now);
      }
    }
  }

  lemma AskMails(db: DB, a: Id, now: Time)
    requires a in db.changes
    ensures MailsOnly(db.outbox, AskNewAddress(db, a, now).outbox)
  {
    hide MailsOnly;
    OneMail(db.outbox, Mail(db.changes[a].email, EmailChangeNew, Some(db.supply)));
  }

  lemma MoveMails(db: DB, a: Id, now: Time)
    requires a in db.changes && a in db.accounts
    ensures MailsOnly(db.outbox, Invalidate(MoveAddress(db, a), a, now).outbox)
  {
    hide MailsOnly;
    OneMail(db.outbox, Mail("", EmailChangeNew, None));
  }

  /** Transactions that neither create nor delete accounts. */
  predicate Settled(a: Action) {
    !a.Attempt? && !a.DeleteDue?
  }

  lemma SettledMails(cfg: Config, db: DB, call: Call)
    requires Settled(call.action)
    ensures MailsOnly(db.outbox, Apply(cfg, db, call).db.outbox)
  {
    hide *;
    var now := call.now;
    Dispatched(cfg, db, call);
    OthersMailNothing(cfg, db, call);
    match call.action
    case CreateChallenge(id, flow, kind, who, options, code, libraryOk) =>
      CreateChallengeMails(cfg, db, now, id, flow, kind, who, options, code, libraryOk);
    case SetPassword(who, grant, password) => SetPasswordMails(cfg, db, now, who, grant, password);
    case SetUsername(who, username) => SetUsernameMails(cfg, db, now, who, username);
    case RequestDeletion(who, grant, shared, delay) => RequestDeletionMails(db, now, who, grant, shared, delay);
    case CreateSession(grant, ttl) => CreateSessionMails(db, now, grant, ttl);
    case StartPasswordReset(email, baseOk) => ResetMails(cfg, db, now, email, baseOk);
    case ConfirmPasswordReset(link, password) => ConfirmResetMails(db, now, link, password);
    case ChangeEmail(who, grant, email, baseOk) => ChangeEmailMails(cfg, db, now, who, grant, email, baseOk);
    case ConfirmEmail(link, baseOk) => ConfirmEmailMails(db, now, link, baseOk);
    case _ =>
  }

  lemma OthersMailNothing(cfg: Config, db: DB, call: Call)
    ensures var a := call.action;
      Settled(a) && !a.CreateChallenge? && !a.SetPassword? && !a.SetUsername? && !a.RequestDeletion? && !a.CreateSession?
      && !a.StartPasswordReset? && !a.ConfirmPasswordReset? && !a.ChangeEmail? && !a.ConfirmEmail?
      ==> MailsOnly(db.outbox, Apply(cfg, db, call).db.outbox)
  {
    hide Apply;
    EveryActionFramed(cfg, db, call);
  }

  // ---------- births and deaths ----------

  function Births(log: seq<Message>, x: Id): nat {
    if log == [] then 0
    else Births(log[..|log| - 1], x) + if log[|log| - 1] == ProfileCreated(x) then 1 else 0
  }

  function Deaths(log: seq<Message>, x: Id): nat {
    if log == [] then 0
    else Deaths(log[..|log| - 1], x) + if log[|log| - 1].ProfileDeleted? && log[|log| - 1].account == x then 1 else 0
  }

  function Created(log: seq<Message>): nat {
    if log == [] then 0 else Created(log[..|log| - 1]) + if log[|log| - 1].ProfileCreated? then 1 else 0
  }

  function Deleted(log: seq<Message>): nat {
    if log == [] then 0 else Deleted(log[..|log| - 1]) + if log[|log| - 1].ProfileDeleted? then 1 else 0
  }

  lemma Appended(log: seq<Message>, m: Message, x: Id)
    ensures Births(log + [m], x) == Births(log, x) + if m == ProfileCreated(x) then 1 else 0
    ensures Deaths(log + [m], x) == Deaths(log, x) + if m.ProfileDeleted? && m.account == x then 1 else 0
    ensures Created(log + [m]) == Created(log) + if m.ProfileCreated? then 1 else 0
    ensures Deleted(log + [m]) == Deleted(log) + if m.ProfileDeleted? then 1 else 0
  {
    assert (log + [m])[..|log|] == log;
  }

  lemma {:induction false} MailsCountNothing(a: seq<Message>, b: seq<Message>, x: Id)
    requires MailsOnly(a, b)
    ensures Births(b, x) == Births(a, x) && Deaths(b, x) == Deaths(a, x) && Created(b) == Created(a) && Deleted(b) == Deleted(a)
    decreases |b|
  {
    if |b| > |a| {
      var n := |b| - 1;
      assert a <= b[..n];
      MailsCountNothing(a, b[..n], x);
    } else {
      assert b == a;
    }
  }

  /** Every account was born once and never died; whoever is gone was born and died once; the books balance. */
  ghost predicate Balanced(accounts: map<Id, Account>, log: seq<Message>, supply: Id) {
    && (forall x: Id :: Deaths(log, x) <= Births(log, x) <= 1)
    && (forall x: Id :: x in accounts <==> Births(log, x) == 1 && Deaths(log, x) == 0)
    && (forall x: Id :: Births(log, x) == 1 ==> x < supply)
    && |accounts| + Deleted(log) == Created(log)
  }

  lemma MailsKeepBalance(a: map<Id, Account>, b: map<Id, Account>, log: seq<Message>, log': seq<Message>, n: Id, m: Id)
    requires Balanced(a, log, n) && MailsOnly(log, log') && b.Keys == a.Keys && n <= m
    ensures Balanced(b, log', m)
  {
    forall x: Id
      ensures Births(log', x) == Births(log, x) && Deaths(log', x) == Deaths(log, x)
    {
      MailsCountNothing(log, log', x);
    }
    MailsCountNothing(log, log', 0);
    assert |b| == |b.Keys| == |a.Keys| == |a|;
    hide MailsOnly;
  }

  lemma BirthKeepsBalance(a: map<Id, Account>, x: Id, row: Account, log: seq<Message>, n: Id, m: Id)
    requires Balanced(a, log, n) && n <= x < m
    ensures Balanced(a[x := row], log + [ProfileCreated(x)], m)
  {
    forall y: Id
      ensures Births(log + [ProfileCreated(x)], y) == Births(log, y) + (if y == x then 1 else 0)
      ensures Deaths(log + [ProfileCreated(x)], y) == Deaths(log, y)
    {
      Appended(log, ProfileCreated(x), y);
    }
    Appended(log, ProfileCreated(x), 0);
    assert x !in a;
  }

  lemma DeathKeepsBalance(a: map<Id, Account>, x: Id, shared: bool, to: string, log: seq<Message>, n: Id)
    requires Balanced(a, log, n) && x in a
    ensures Balanced(a - {x}, log + [ProfileDeleted(x, shared)] + [Mail(to, AccountDeleted, None)], n)
  {
    var d, m := ProfileDeleted(x, shared), Mail(to, AccountDeleted, None);
    forall y: Id
      ensures Births(log + [d] + [m], y) == Births(log, y)
      ensures Deaths(log + [d] + [m], y) == Deaths(log, y) + (if y == x then 1 else 0)
    {
      Appended(log, d, y);
      Appended(log + [d], m, y);
    }
    Appended(log, d, 0);
    Appended(log + [d], m, 0);
    assert (a - {x}).Keys == a.Keys - {x};
  }

  // ---------- over runs ----------

  lemma AttemptKeepsBalance(cfg: Config, db: DB, clock: Time, now: Time, id: Id, cid: Id, flow: Id, who: Principal, proof: Proof)
    requires Core(cfg, db, clock) && clock <= now && Balanced(db.accounts, db.outbox, db.supply)
    ensures var b := Settle(db, AttemptTx(cfg, db, now, id, cid, flow, who, proof)).db; Balanced(b.accounts, b.outbox, b.supply)
  {
    hide Core, AttemptTx, Balanced, DoneKinds, EmailTaken, HolderOf, MailsOnly;
    AttemptAccounts(cfg, db, clock, now, id, cid, flow, who, proof);
    var b := Settle(db, AttemptTx(cfg, db, now, id, cid, flow, who, proof)).db;
    if SameHolders(db, b) {
      OneMail(db.outbox, Mail("", NewLogin, None));
      MailsKeepBalance(db.accounts, b.accounts, db.outbox, b.outbox, db.supply, b.supply);
    } else {
      var x := HolderOf(b, id);
      BirthKeepsBalance(db.accounts, x, b.accounts[x], db.outbox, db.supply, b.supply);
    }
  }

  lemma DeleteDueKeepsBalance(db: DB, now: Time)
    requires Balanced(db.accounts, db.outbox, db.supply)
    ensures var b := Settle(db, DeleteDueTx(db, now)).db; Balanced(b.accounts, b.outbox, b.supply)
  {
    hide NextDue, Balanced, DropAccount;
    var due := NextDue(db.accounts, db.deletions, db.supply, now);
    if due.Some? {
      var x, shared := due.value, db.deletions[due.value].shared;
      var d := Notify(Enqueue(db, ProfileDeleted(x, shared)), x, AccountDeleted);
      assert d.outbox == db.outbox + [ProfileDeleted(x, shared)] + [Mail(db.accounts[x].email, AccountDeleted, None)];
      DropAccountExactly(d, x);
      DeathKeepsBalance(db.accounts, x, shared, db.accounts[x].email, db.outbox, db.supply);
    }
  }

  lemma DropAccountExactly(db: DB, x: Id)
    ensures var d := DropAccount(db, x); d.accounts == db.accounts - {x} && d.outbox == db.outbox && d.supply == db.supply
  {
  }

  lemma SettledKeepAccounts(cfg: Config, db: DB, call: Call)
    requires Settled(call.action)
    ensures Apply(cfg, db, call).db.accounts.Keys == db.accounts.Keys
  {
    hide ConfirmEmailTx, Changing;
    if call.action.ConfirmEmail? {
      ConfirmEmailMoves(db, call.now, call.action.link, call.action.baseOk);
    } else {
      ManyKeepEmails(cfg, db, call);
      hide Apply;
    }
  }

  lemma BalanceKept(cfg: Config, db: DB, clock: Time, call: Call)
    requires Core(cfg, db, clock) && clock <= call.now && Balanced(db.accounts, db.outbox, db.supply)
    ensures var b := Apply(cfg, db, call).db; Balanced(b.accounts, b.outbox, b.supply)
  {
    hide Core, Balanced, AttemptTx, DeleteDueTx, MailsOnly;
    if call.action.Attempt? {
      var Attempt(id, cid, flow, who, proof) := call.action;
      AttemptKeepsBalance(cfg, db, clock, call.now, id, cid, flow, who, proof);
    } else if call.action.DeleteDue? {
      DeleteDueKeepsBalance(db, call.now);
    } else {
      hide Transact;
      SettledMails(cfg, db, call);
      SettledKeepAccounts(cfg, db, call);
      EveryActionFramed(cfg, db, call);
      var b := Apply(cfg, db, call).db;
      MailsKeepBalance(db.accounts, b.accounts, db.outbox, b.outbox, db.supply, b.supply);
    }
  }

  /** Live accounts are profile.created minus profile.deleted events, account by account and in number, after every run. */
  lemma {:induction false} BooksBalance(cfg: Config, run: seq<Call>, now: Time)
    requires Ordered(run, now)
    ensures var db := After(cfg, run); Balanced(db.accounts, db.outbox, db.supply)
  {
    hide Balanced, Apply, Inv;
    if run == [] {
      EmptyBalances();
    } else {
      var n := |run| - 1;
      OrderedPrefix(run, now, n);
      BooksBalance(cfg, run[..n], run[n].now);
      Reachable(cfg, run[..n], run[n].now);
      InvCore(cfg, After(cfg, run[..n]), run[n].now);
      BalanceKept(cfg, After(cfg, run[..n]), run[n].now, run[n]);
    }
  }

  lemma InvCore(cfg: Config, db: DB, clock: Time)
    requires Inv(cfg, db, clock)
    ensures Core(cfg, db, clock)
  {
    hide Core;
  }

  lemma EmptyBalances()
    ensures Balanced(EMPTY.accounts, EMPTY.outbox, EMPTY.supply)
  {
  }
}
