/** internal/authentication/account.go: password, username and the deletion lifecycle. */
module Accounts {
  import opened Base
  import opened Store
  import opened Answers
  import opened Processes
  import opened Challenges

  function SetAccount(db: DB, account: Id, row: Account): DB {
    db.(accounts := db.accounts[account := row])
  }

  /** A new password hash: the salt is drawn from the supply. */
  function StorePassword(db: DB, account: Id, password: Store.Password): DB
    requires account in db.accounts
  {
    SetAccount(db, account, db.accounts[account].(password := Some(Bcrypt(password, db.supply)))).(supply := db.supply + 1)
  }

  function ReplacePassword(db: DB, now: Time, account: Id, password: Store.Password, keep: set<Id>): Outcome
    requires account in db.accounts
  {
    var d := Notify(Invalidate(StorePassword(db, account, password), account, now), account, PasswordChanged);
    Ok(Commit(DropSessions(d, SessionsOf(d, account) - keep), Done))
  }

  function SetPasswordTx(cfg: Config, db: DB, now: Time, who: Principal, grant: Id, password: Store.Password): Outcome {
    if !AcceptablePassword(password) then Err(Invalid) else
    :- Need(FullPrincipal(db, now, who), Forbidden);
    var existing := db.accounts[who.account].password;
    if existing.None? then ReplacePassword(db, now, who.account, password, {who.session})
    else
      var spent :- ConsumeGrant(db, now, grant, PasswordChange, who);
      ChangePassword(cfg, spent.db, now, who.account, who.session, existing.value, password)
  }

  /** The password an account has already is accepted, and changes nothing. */
  function ChangePassword(cfg: Config, db: DB, now: Time, account: Id, session: Id, existing: PasswordHash, password: Store.Password): Outcome
    requires account in db.accounts
  {
    if cfg.bcryptMatches(existing, password) then Ok(Commit(db, Done))
    else ReplacePassword(db, now, account, password, {session})
  }

  // ---------- usernames ----------

  predicate UsernameChar(c: char) {
    'a' <= c <= 'z' || '0' <= c <= '9' || c == '_'
  }

  /** The letters of a name, a digit one read as the letter i. */
  function Letters(s: string): string {
    if s == [] then []
    else Letters(s[..|s| - 1]) + LetterOf(s[|s| - 1])
  }

  function LetterOf(c: char): string {
    if 'a' <= c <= 'z' then [c] else if c == '1' then "i" else ""
  }

  predicate OccursAt(s: string, i: nat, word: string) {
    i + |word| <= |s| && s[i..i + |word|] == word
  }

  predicate Contains(s: string, word: string) {
    exists i | 0 <= i <= |s| - |word| :: OccursAt(s, i, word)
  }

  predicate ValidUsername(forbidden: seq<string>, s: string) {
    && 5 <= |s| <= 64 && 'a' <= s[0] <= 'z' && s[|s| - 1] != '_' && !Contains(s, "__")
    && (forall i | 0 <= i < |s| :: UsernameChar(s[i]))
    && (forall w | 0 <= w < |forbidden| :: !Contains(Letters(s), forbidden[w]))
  }

  predicate UsernameTaken(accounts: map<Id, Account>, holder: Id, name: string) {
    exists a | a in accounts :: a != holder && accounts[a].username == Some(name)
  }

  function SetUsernameTx(cfg: Config, db: DB, now: Time, who: Principal, raw: string): Outcome {
    var name := cfg.normalize(raw);
    :- Need(ValidUsername(cfg.forbidden, name), Invalid);
    :- Need(FullPrincipal(db, now, who), Forbidden);
    ChooseUsername(db, who.account, name)
  }

  function ChooseUsername(db: DB, account: Id, name: string): Outcome
    requires account in db.accounts
  {
    var row := db.accounts[account];
    if row.username == Some(name) then Ok(Commit(db, Done))
    else if UsernameTaken(db.accounts, account, name) then Err(Conflict)
    else Ok(Commit(Notify(SetAccount(db, account, row.(username := Some(name))), account, UsernameChanged), Done))
  }

  // ---------- deletion ----------

  function RequestDeletionTx(db: DB, now: Time, who: Principal, grant: Id, shared: bool, delay: int): Outcome {
    var spent :- ConsumeGrant(db, now, grant, AccountDeletion, who);
    ScheduleDeletion(spent.db, now, spent.account, shared, delay)
  }

  /** A request already there keeps its deadline, and can no longer change once it is due. */
  function ScheduleDeletion(db: DB, now: Time, account: Id, shared: bool, delay: int): Outcome
    requires account in db.accounts
  {
    if account in db.deletions && db.deletions[account].at <= now then Err(Conflict)
    else
      var row := Deletion(shared, if account in db.deletions then db.deletions[account].at else now + delay);
      Ok(Commit(Notify(db.(deletions := db.deletions[account := row]), account, DeletionRequested), DeletionSet(row)))
  }

  function PatchDeletionTx(db: DB, now: Time, who: Principal, shared: bool): Outcome {
    if !RecoveryPrincipal(db, now, who) then Err(Forbidden) else
    :- Need(who.account in db.deletions, NotFound);
    :- Need(db.deletions[who.account].at > now, Conflict);
    var row := db.deletions[who.account].(shared := shared);
    Ok(Commit(db.(deletions := db.deletions[who.account := row]), DeletionSet(row)))
  }

  function CancelDeletionTx(db: DB, now: Time, who: Principal): Outcome {
    if !RecoveryPrincipal(db, now, who) then Err(Forbidden) else
    if who.account !in db.deletions then Ok(Commit(db, Done))
    else
      :- Need(db.deletions[who.account].at > now, Conflict);
      Ok(Commit(db.(deletions := db.deletions - {who.account}), Done))
  }

  /** DeleteDueAccount: one account whose deadline has passed, with its lifecycle event. */
  function DeleteDueTx(db: DB, now: Time): Outcome {
    var due := NextDue(db.accounts, db.deletions, db.supply, now);
    if due.None? then Ok(Commit(db, Flag(false)))
    else
      var a := due.value;
      var d := Notify(Enqueue(db, ProfileDeleted(a, db.deletions[a].shared)), a, AccountDeleted);
      Ok(Commit(DropAccount(d, a), Flag(true)))
  }
}
