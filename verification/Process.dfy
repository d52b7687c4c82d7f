/** internal/authentication/process.go: starting, loading and completing a process, and spending its grant. */
module Processes {
  import opened Base
  import opened Secrets
  import opened Store
  import opened Answers

  // ---------- principals ----------

  predicate LiveSession(db: DB, now: Time, who: Principal) {
    && who.Bearer?
    && who.session in db.sessions
    && db.sessions[who.session].account == who.account
    && db.sessions[who.session].expires > now
  }

  predicate RecoveryPrincipal(db: DB, now: Time, who: Principal) {
    && LiveSession(db, now, who)
    && who.account in db.accounts
    && !db.accounts[who.account].blocked
  }

  predicate FullPrincipal(db: DB, now: Time, who: Principal) {
    RecoveryPrincipal(db, now, who) && who.account !in db.deletions
  }

  predicate PurposePrincipal(db: DB, now: Time, who: Principal, purpose: Purpose) {
    if purpose == AccountDeletion then RecoveryPrincipal(db, now, who) else FullPrincipal(db, now, who)
  }

  // ---------- loading ----------

  function Load(db: DB, now: Time, id: Id, flow: Id, who: Principal): Result<Process> {
    if id !in db.procs then Err(Unauthorized) else
    var p := db.procs[id];
    :- Need(p.flow == Digest(FlowTag, 0, flow) && p.invalid.None? && p.expires > now, Unauthorized);
    :- Need(Sensitive(p.purpose) ==> who.Bearer? && p.account == Some(who.account) && p.session == Some(who.session), Forbidden);
    :- Need(Sensitive(p.purpose) ==> PurposePrincipal(db, now, who, p.purpose), Forbidden);
    Ok(p)
  }

  // ---------- what a process may do next ----------

  predicate IsFirstFactor(k: Kind) {
    k == Password || k == Google || k == Vk || k == Passkey
  }

  predicate IsSecondFactor(k: Kind) {
    k == Totp || k == BackupCode || k == Passkey
  }

  predicate DoneStep(s: Step, id: Id) {
    s.process == id && s.status == Completed
  }

  /** The kinds of step that a process has completed. */
  function DoneKinds(steps: map<Id, Step>, id: Id): set<Kind> {
    set s | s in steps && DoneStep(steps[s], id) :: steps[s].kind
  }

  predicate HasFirst(done: set<Kind>) {
    Password in done || Google in done || Vk in done || Passkey in done
  }

  predicate HasSecond(done: set<Kind>) {
    Totp in done || BackupCode in done || Passkey in done
  }

  function FirstFactorMethods(cfg: Config): seq<Kind> {
    [Password] + (if cfg.google then [Google] else []) + (if cfg.vk then [Vk] else [])
    + (if cfg.passkeys then [Passkey] else [])
  }

  function Next(cfg: Config, db: DB, id: Id, p: Process): Result<seq<Kind>> {
    var done := DoneKinds(db.steps, id);
    if p.status != Pending then Ok([])
    else if p.purpose == SignUp then
      if id !in db.signups then Ok([Registration])
      else if Email !in done then Ok([Email])
      else if PasswordSetup in done then Ok([])
      else Ok([PasswordSetup])
    else if !HasFirst(done) then Ok(FirstFactorMethods(cfg))
    else if p.account.None? then Err(Forbidden)
    else if p.account.value in db.totp && !HasSecond(done) then Ok([Totp, BackupCode])
    else Ok([])
  }

  // ---------- reuse of recent evidence ----------

  predicate FreshFirst(steps: map<Id, Step>, id: Id, after: Time) {
    exists s | s in steps :: DoneStep(steps[s], id) && IsFirstFactor(steps[s].kind)
      && steps[s].completed.Some? && steps[s].completed.value > after
  }

  predicate FreshSecond(steps: map<Id, Step>, id: Id, after: Time) {
    exists s | s in steps :: DoneStep(steps[s], id) && IsSecondFactor(steps[s].kind)
      && steps[s].completed.Some? && steps[s].completed.value > after
  }

  /** The process q is evidence for the account and session. */
  predicate Evidence(db: DB, q: Id, account: Id, session: Id, after: Time) {
    && q in db.procs
    && db.procs[q].account == Some(account) && db.procs[q].session == Some(session)
    && db.procs[q].status == Completed && db.procs[q].invalid.None?
    && FreshFirst(db.steps, q, after)
    && (account in db.totp ==> FreshSecond(db.steps, q, after))
  }

  predicate Reusable(db: DB, account: Id, session: Id, after: Time) {
    exists q | q in db.procs :: Evidence(db, q, account, session, after)
  }

  // ---------- completion and grants ----------

  /** complete: the grant token is the next number of the supply. */
  function Finish(cfg: Config, db: DB, id: Id, account: Id, now: Time): DB
    requires id in db.procs
  {
    db.(procs := db.procs[id := db.procs[id].(
          status := Completed, account := Some(account), completed := Some(now),
          grant := Some(Grant(Digest(GrantTag, 0, db.supply), now + cfg.grantTTL)))],
        supply := db.supply + 1)
  }

  function NewProcess(cfg: Config, db: DB, now: Time, purpose: Purpose, who: Principal): Process {
    Process(purpose, Pending,
            if Sensitive(purpose) && who.Bearer? then Some(who.account) else None,
            if Sensitive(purpose) && who.Bearer? then Some(who.session) else None,
            Digest(FlowTag, 0, db.supply + 1), 0, now + cfg.flowTTL, None, None, None)
  }

  /** A pending process under the next id, with the token after it. */
  function Opened(cfg: Config, db: DB, now: Time, purpose: Purpose, who: Principal): DB {
    db.(procs := db.procs[db.supply := NewProcess(cfg, db, now, purpose, who)], supply := db.supply + 2)
  }

  function StartTx(cfg: Config, db: DB, now: Time, name: string, who: Principal): Outcome {
    var purpose :- ParsePurpose(name);
    :- Need(Sensitive(purpose) ==> who.Bearer?, Forbidden);
    :- Need(Sensitive(purpose) ==> PurposePrincipal(db, now, who, purpose), Forbidden);
    var id, flow := db.supply, db.supply + 1;
    var d := Opened(cfg, db, now, purpose, who);
    var next :- Next(cfg, d, id, d.procs[id]);
    if Sensitive(purpose) && Reusable(d, who.account, who.session, now - cfg.reuseTTL) then
      Ok(Commit(Finish(cfg, d, id, who.account, now), Started(View(id, purpose, Completed, [], Some(d.supply)), flow)))
    else
      Ok(Commit(d, Started(View(id, purpose, Pending, next, None), flow)))
  }

  predicate Spendable(p: Process, purpose: Purpose, now: Time) {
    p.purpose == purpose && p.status == Completed && p.invalid.None? && p.grant.Some? && p.grant.value.expires > now
  }

  datatype Spent = Spent(db: DB, process: Id, account: Id)

  /** ConsumeGrant, to be followed by the authorised action in the same transaction. */
  function ConsumeGrant(db: DB, now: Time, token: Id, purpose: Purpose, who: Principal): (r: Result<Spent>)
    ensures r.Ok? ==>
      && r.value.process in db.procs
      && HoldsGrant(db.procs[r.value.process], Digest(GrantTag, 0, token))
      && Spendable(db.procs[r.value.process], purpose, now)
      && db.procs[r.value.process].account == Some(r.value.account)
      && r.value.account in db.accounts && !db.accounts[r.value.account].blocked
      && r.value.db == db.(procs := db.procs[r.value.process := db.procs[r.value.process].(grant := None)])
    ensures r.Ok? && Sensitive(purpose) ==>
      && who.Bearer? && who.account == r.value.account
      && db.procs[r.value.process].session == Some(who.session)
      && PurposePrincipal(db, now, who, purpose)
  {
    var found := ProcByGrant(db.procs, db.supply, Digest(GrantTag, 0, token));
    :- Need(found.Some?, Forbidden);
    var p := db.procs[found.value];
    :- Need(Spendable(p, purpose, now), Forbidden);
    :- Need(Sensitive(purpose) ==> who.Bearer? && p.account == Some(who.account) && p.session == Some(who.session), Forbidden);
    :- Need(Sensitive(purpose) ==> PurposePrincipal(db, now, who, purpose), Forbidden);
    :- Need(p.account.Some? && p.account.value in db.accounts, Internal);
    :- Need(!db.accounts[p.account.value].blocked, Forbidden);
    Ok(Spent(db.(procs := db.procs[found.value := p.(grant := None)]), found.value, p.account.value))
  }

  /** invalidate: every live process of the account loses its standing and its grant. */
  function Invalidate(db: DB, account: Id, now: Time): DB {
    db.(procs := map p | p in db.procs :: InvalidateRow(db.procs[p], account, now))
  }

  function InvalidateRow(p: Process, account: Id, now: Time): Process {
    if p.account == Some(account) && p.invalid.None? then p.(invalid := Some(now), grant := None) else p
  }

  function Enqueue(db: DB, m: Message): DB {
    db.(outbox := db.outbox + [m])
  }

  /** notifyAccount: a mail to the account's present address. */
  function Notify(db: DB, account: Id, template: Template): DB
    requires account in db.accounts
  {
    Enqueue(db, Mail(db.accounts[account].email, template, None))
  }
}
