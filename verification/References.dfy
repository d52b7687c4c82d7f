/** The foreign keys of the schema: in every reachable state every reference points at a row. */
module References {
  import opened Base
  import opened Secrets
  import opened Store
  import opened Answers
  import opened Processes
  import opened Challenges
  import opened OAuth
  import opened Accounts
  import opened Totps
  import opened Sessions
  import opened Mails
  import opened CredentialOps
  import opened Protocol
  import opened Invariant
  import opened Quietness
  import opened QuietActions
  import opened Frames
  import opened FlowActions
  import opened Attempts
  import opened Registrations
  import opened KeyActions
  import opened Reachability
  import opened Links

  // ---------- rows that belong to an account ----------

  ghost predicate SessionsOwned(sessions: map<Id, Session>, accounts: set<Id>) {
    forall s | s in sessions :: sessions[s].account in accounts
  }

  ghost predicate ProcsOwned(procs: map<Id, Process>, accounts: set<Id>) {
    forall p | p in procs && procs[p].account.Some? :: procs[p].account.value in accounts
  }

  ghost predicate PasskeysOwned(passkeys: map<Id, PasskeyRow>, accounts: set<Id>) {
    forall k | k in passkeys :: passkeys[k].account in accounts
  }

  ghost predicate IdentitiesOwned(identities: map<IdentityKey, string>, accounts: set<Id>) {
    forall i | i in identities :: i.account in accounts
  }

  ghost predicate BackupsOwned(backups: set<BackupKey>, accounts: set<Id>) {
    forall b | b in backups :: b.account in accounts
  }

  /** A table keyed by account. */
  ghost predicate KeysOwned<V>(table: map<Id, V>, accounts: set<Id>) {
    forall x | x in table :: x in accounts
  }

  ghost predicate CredentialsOwned(db: DB) {
    && KeysOwned(db.totp, db.accounts.Keys) && KeysOwned(db.activations, db.accounts.Keys)
    && PasskeysOwned(db.passkeys, db.accounts.Keys) && IdentitiesOwned(db.identities, db.accounts.Keys)
    && BackupsOwned(db.backups, db.accounts.Keys)
  }

  ghost predicate RequestsOwned(db: DB) {
    && KeysOwned(db.changes, db.accounts.Keys) && KeysOwned(db.resets, db.accounts.Keys) && KeysOwned(db.deletions, db.accounts.Keys)
  }

  ghost predicate Owned(db: DB) {
    && SessionsOwned(db.sessions, db.accounts.Keys) && ProcsOwned(db.procs, db.accounts.Keys)
    && CredentialsOwned(db) && RequestsOwned(db)
  }

  /** Every foreign key: steps and registrations to processes, everything to its session, its step and its account. */
  ghost predicate Refs(db: DB) {
    Rooted(db) && Linked(db) && Owned(db)
  }

  // ---------- dropping an account takes what it owns ----------

  lemma OrphansOwned(db: DB)
    ensures Owned(WithoutAccountOrphans(db))
  {
  }

  lemma CascadeKeepsOwned(db: DB)
    requires Owned(db)
    ensures Owned(CascadeSessions(db))
  {
  }

  lemma DeleteDueOwned(db: DB, now: Time)
    requires Owned(db)
    ensures Owned(Settle(db, DeleteDueTx(db, now)).db)
  {
    hide NextDue, CascadeSessions, WithoutAccountOrphans, Owned;
    var due := NextDue(db.accounts, db.deletions, db.supply, now);
    if due.Some? {
      var d := Notify(Enqueue(db, ProfileDeleted(due.value, db.deletions[due.value].shared)), due.value, AccountDeleted);
      var e := d.(accounts := d.accounts - {due.value});
      OrphansOwned(e);
      CascadeKeepsOwned(WithoutAccountOrphans(e));
    }
  }

  // ---------- no other transaction loses an account ----------

  lemma AccountsStay(cfg: Config, db: DB, clock: Time, call: Call)
    requires Core(cfg, db, clock) && clock <= call.now && !call.action.DeleteDue?
    ensures db.accounts.Keys <= Apply(cfg, db, call).db.accounts.Keys
  {
    hide Core, AttemptTx, ConfirmEmailTx, HolderOf, Changing, Enlisted, Framed;
    if call.action.Attempt? {
      var Attempt(id, cid, flow, who, proof) := call.action;
      AttemptKeepsAccounts(cfg, db, clock, call.now, id, cid, flow, who, proof);
    } else if call.action.ConfirmEmail? {
      ConfirmEmailMoves(db, call.now, call.action.link, call.action.baseOk);
    } else {
      hide Transact;
      ManyKeepEmails(cfg, db, call);
    }
  }

  lemma AttemptKeepsAccounts(cfg: Config, db: DB, clock: Time, now: Time, id: Id, cid: Id, flow: Id, who: Principal, proof: Proof)
    requires Core(cfg, db, clock) && clock <= now
    ensures db.accounts.Keys <= Settle(db, AttemptTx(cfg, db, now, id, cid, flow, who, proof)).db.accounts.Keys
  {
    hide Core, AttemptTx, HolderOf, DoneKinds, EmailTaken;
    AttemptAccounts(cfg, db, clock, now, id, cid, flow, who, proof);
  }

  // ---------- new rows belong to an account that is there ----------

  lemma SpentOwner(db: DB, now: Time, grant: Id, purpose: Purpose, who: Principal)
    requires ConsumeGrant(db, now, grant, purpose, who).Ok?
    ensures var s := ConsumeGrant(db, now, grant, purpose, who).value;
      s.account in db.accounts && s.db == db.(procs := s.db.procs)
  {
    hide HoldsGrant, Spendable, PurposePrincipal;
  }

  lemma CreateSessionOwned(db: DB, now: Time, grant: Id, ttl: int)
    requires SessionsOwned(db.sessions, db.accounts.Keys)
    ensures SessionsOwned(Settle(db, CreateSessionTx(db, now, grant, ttl)).db.sessions, db.accounts.Keys)
  {
    hide ConsumeGrant, ProcByGrant;
    var found := ProcByGrant(db.procs, db.supply, Digest(GrantTag, 0, grant));
    if CreateSessionTx(db, now, grant, ttl).Ok? {
      SpentOwner(db, now, grant, db.procs[found.value].purpose, Anonymous);
    }
  }

  lemma RefreshOwned(db: DB, now: Time, id: Id, refresh: Id, ttl: int)
    requires SessionsOwned(db.sessions, db.accounts.Keys)
    ensures SessionsOwned(Settle(db, RefreshTx(db, now, id, refresh, ttl)).db.sessions, db.accounts.Keys)
  {
  }

  lemma StartTotpOwned(db: DB, now: Time, who: Principal, grant: Id)
    requires KeysOwned(db.activations, db.accounts.Keys)
    ensures KeysOwned(Settle(db, StartTotpTx(db, now, who, grant)).db.activations, db.accounts.Keys)
  {
    hide ConsumeGrant;
    if StartTotpTx(db, now, who, grant).Ok? {
      SpentOwner(db, now, grant, Purpose.TotpEnrollment, who);
    }
  }

  lemma RequestDeletionOwned(db: DB, now: Time, who: Principal, grant: Id, shared: bool, delay: int)
    requires KeysOwned(db.deletions, db.accounts.Keys)
    ensures KeysOwned(Settle(db, RequestDeletionTx(db, now, who, grant, shared, delay)).db.deletions, db.accounts.Keys)
  {
    hide ConsumeGrant;
    if RequestDeletionTx(db, now, who, grant, shared, delay).Ok? {
      SpentOwner(db, now, grant, AccountDeletion, who);
    }
  }

  lemma OwnersDeletionOwned(db: DB, now: Time, who: Principal, shared: bool)
    requires KeysOwned(db.deletions, db.accounts.Keys)
    ensures KeysOwned(Settle(db, PatchDeletionTx(db, now, who, shared)).db.deletions, db.accounts.Keys)
    ensures KeysOwned(Settle(db, CancelDeletionTx(db, now, who)).db.deletions, db.accounts.Keys)
  {
  }

  lemma StartResetOwned(cfg: Config, db: DB, now: Time, email: string, baseOk: bool)
    requires KeysOwned(db.resets, db.accounts.Keys)
    ensures KeysOwned(Settle(db, StartPasswordResetTx(cfg, db, now, email, baseOk)).db.resets, db.accounts.Keys)
  {
    hide AccountByEmail;
  }

  lemma ChangeEmailOwned(cfg: Config, db: DB, now: Time, who: Principal, grant: Id, email: string, baseOk: bool)
    requires KeysOwned(db.changes, db.accounts.Keys)
    ensures KeysOwned(Settle(db, ChangeEmailTx(cfg, db, now, who, grant, email, baseOk)).db.changes, db.accounts.Keys)
  {
    hide ConsumeGrant;
    if ChangeEmailTx(cfg, db, now, who, grant, email, baseOk).Ok? {
      SpentOwner(db, now, grant, EmailChanging, who);
    }
  }

  lemma ConfirmEmailOwned(db: DB, now: Time, link: Id, baseOk: bool)
    requires KeysOwned(db.changes, db.accounts.Keys)
    ensures KeysOwned(Settle(db, ConfirmEmailTx(db, now, link, baseOk)).db.changes, db.accounts.Keys)
  {
    hide ChangeByToken, EmailTaken, InvalidateRow;
  }

  lemma FinishLinkOwned(db: DB, now: Time, who: Principal, grant: Id, provider: Provider, subject: string)
    requires IdentitiesOwned(db.identities, db.accounts.Keys)
    ensures IdentitiesOwned(Settle(db, FinishLinkTx(db, now, who, grant, provider, subject)).db.identities, db.accounts.Keys)
  {
    hide ConsumeGrant, InvalidateRow, IdentityTaken;
    if FinishLinkTx(db, now, who, grant, provider, subject).Ok? {
      SpentOwner(db, now, grant, Purpose.IdentityLink, who);
    }
  }

  lemma RegisterPasskeyOwned(cfg: Config, db: DB, now: Time, who: Principal, request: Id, name: string, credential: Option<Id>)
    requires PasskeysOwned(db.passkeys, db.accounts.Keys)
    ensures PasskeysOwned(Settle(db, RegisterPasskeyTx(cfg, db, now, who, request, name, credential)).db.passkeys, db.accounts.Keys)
  {
    hide InvalidateRow;
  }

  lemma ReplacedOwned(db: DB, account: Id)
    requires BackupsOwned(db.backups, db.accounts.Keys) && account in db.accounts
    ensures var d := ReplaceBackupCodes(db, account).db; BackupsOwned(d.backups, db.accounts.Keys) && d.totp == db.totp && d.activations == db.activations
  {
  }

  lemma RotateOwned(db: DB, now: Time, who: Principal, grant: Id)
    requires BackupsOwned(db.backups, db.accounts.Keys)
    ensures BackupsOwned(Settle(db, RotateBackupCodesTx(db, now, who, grant)).db.backups, db.accounts.Keys)
  {
    hide ConsumeGrant, ReplaceBackupCodes, InvalidateRow;
    if RotateBackupCodesTx(db, now, who, grant).Ok? {
      SpentOwner(db, now, grant, Purpose.BackupCodesRotation, who);
      ReplacedOwned(ConsumeGrant(db, now, grant, Purpose.BackupCodesRotation, who).value.db, who.account);
    }
  }

  // ---------- table by table ----------

  lemma SessionsOwnedKept(cfg: Config, db: DB, call: Call)
    requires SessionsOwned(db.sessions, db.accounts.Keys) && !call.action.DeleteDue?
    ensures SessionsOwned(Apply(cfg, db, call).db.sessions, db.accounts.Keys)
  {
    hide *;
    Dispatched(cfg, db, call);
    match call.action
    case CreateSession(grant, ttl) => CreateSessionOwned(db, call.now, grant, ttl);
    case Refresh(session, refresh, ttl) => RefreshOwned(db, call.now, session, refresh, ttl);
    case _ =>
      OtherSessionsOwned(cfg, db, call);
  }

  lemma OtherSessionsOwned(cfg: Config, db: DB, call: Call)
    requires SessionsOwned(db.sessions, db.accounts.Keys) && !call.action.CreateSession? && !call.action.Refresh?
    ensures SessionsOwned(Apply(cfg, db, call).db.sessions, db.accounts.Keys)
  {
    hide Apply;
    EveryActionFramed(cfg, db, call);
    if Drops(call.action) {
      DropsShrink(cfg, db, call);
    }
  }

  lemma SetupsOwnedKept(cfg: Config, db: DB, call: Call)
    requires KeysOwned(db.activations, db.accounts.Keys) && PasskeysOwned(db.passkeys, db.accounts.Keys) && !call.action.DeleteDue?
    ensures KeysOwned(Apply(cfg, db, call).db.activations, db.accounts.Keys)
    ensures PasskeysOwned(Apply(cfg, db, call).db.passkeys, db.accounts.Keys)
  {
    hide *;
    Dispatched(cfg, db, call);
    match call.action {
      case StartTotp(who, grant) => StartTotpOwned(db, call.now, who, grant);
      case RegisterPasskey(who, request, name, credential) => RegisterPasskeyOwned(cfg, db, call.now, who, request, name, credential);
      case DeletePasskey(who, grant, passkey) => DeletePasskeyDrops(db, call.now, who, grant, passkey);
      case _ =>
    }
    OtherSetupsOwned(cfg, db, call);
  }

  lemma OtherSetupsOwned(cfg: Config, db: DB, call: Call)
    requires KeysOwned(db.activations, db.accounts.Keys) && PasskeysOwned(db.passkeys, db.accounts.Keys) && !call.action.DeleteDue?
    ensures !call.action.StartTotp? ==> KeysOwned(Apply(cfg, db, call).db.activations, db.accounts.Keys)
    ensures !call.action.RegisterPasskey? && !call.action.DeletePasskey? ==> PasskeysOwned(Apply(cfg, db, call).db.passkeys, db.accounts.Keys)
    ensures Within(Apply(cfg, db, call).db.passkeys, db.passkeys) ==> PasskeysOwned(Apply(cfg, db, call).db.passkeys, db.accounts.Keys)
  {
    hide Apply;
    EveryActionFramed(cfg, db, call);
    if Drops(call.action) {
      DropsShrink(cfg, db, call);
    }
  }

  lemma RequestsOwnedKept(cfg: Config, db: DB, call: Call)
    requires KeysOwned(db.changes, db.accounts.Keys) && KeysOwned(db.resets, db.accounts.Keys) && KeysOwned(db.deletions, db.accounts.Keys)
    requires !call.action.DeleteDue?
    ensures var b := Apply(cfg, db, call).db;
      KeysOwned(b.changes, db.accounts.Keys) && KeysOwned(b.resets, db.accounts.Keys) && KeysOwned(b.deletions, db.accounts.Keys)
  {
    hide *;
    Dispatched(cfg, db, call);
    match call.action {
      case ChangeEmail(who, grant, email, baseOk) => ChangeEmailOwned(cfg, db, call.now, who, grant, email, baseOk);
      case ConfirmEmail(link, baseOk) => ConfirmEmailOwned(db, call.now, link, baseOk);
      case StartPasswordReset(email, baseOk) => StartResetOwned(cfg, db, call.now, email, baseOk);
      case RequestDeletion(who, grant, shared, delay) => RequestDeletionOwned(db, call.now, who, grant, shared, delay);
      case PatchDeletion(who, shared) => OwnersDeletionOwned(db, call.now, who, shared);
      case CancelDeletion(who) => OwnersDeletionOwned(db, call.now, who, false);
      case _ =>
    }
    OtherRequestsOwned(cfg, db, call);
  }

  lemma OtherRequestsOwned(cfg: Config, db: DB, call: Call)
    requires KeysOwned(db.changes, db.accounts.Keys) && KeysOwned(db.resets, db.accounts.Keys) && KeysOwned(db.deletions, db.accounts.Keys)
    requires !call.action.DeleteDue?
    ensures var b, a := Apply(cfg, db, call).db, call.action;
      && (!a.ChangeEmail? && !a.ConfirmEmail? ==> KeysOwned(b.changes, db.accounts.Keys))
      && (!a.StartPasswordReset? ==> KeysOwned(b.resets, db.accounts.Keys))
      && (!a.RequestDeletion? && !a.PatchDeletion? && !a.CancelDeletion? ==> KeysOwned(b.deletions, db.accounts.Keys))
  {
    hide Apply;
    EveryActionFramed(cfg, db, call);
    if Drops(call.action) {
      DropsShrink(cfg, db, call);
    }
  }

  lemma ConfirmTotpOwned(cfg: Config, db: DB, now: Time, who: Principal, digits: string)
    requires KeysOwned(db.totp, db.accounts.Keys) && BackupsOwned(db.backups, db.accounts.Keys)
    ensures var b := Settle(db, ConfirmTotpTx(cfg, db, now, who, digits)).db;
      KeysOwned(b.totp, db.accounts.Keys) && BackupsOwned(b.backups, db.accounts.Keys)
  {
    hide TotpStep, DropSessions, ReplaceBackupCodes, Invalidate;
    if ConfirmTotpTx(cfg, db, now, who, digits).Ok? {
      var a := who.account;
      var key := db.activations[a].key;
      var used := TotpStep(cfg.mac, key, digits, now, -1);
      var c := db.(totp := db.totp[a := TotpFactor(key, used.value)], activations := db.activations - {a});
      var d := Invalidate(c, a, now);
      var gone := SessionsOf(d, a) - {who.session};
      EnrolmentKept(c, a, now, gone);
      DropSessionsKeepsAccounts(c, a, now, gone);
      ReplacedOwned(DropSessions(d, gone), a);
    }
  }

  lemma DropSessionsKeepsAccounts(c: DB, a: Id, now: Time, gone: set<Id>)
    ensures DropSessions(Invalidate(c, a, now), gone).accounts == c.accounts
  {
  }

  lemma DeleteTotpShrinks(db: DB, now: Time, who: Principal, grant: Id)
    ensures Settle(db, DeleteTotpTx(db, now, who, grant)).db.totp.Keys <= db.totp.Keys
  {
    hide ConsumeGrant, InvalidateRow;
  }

  lemma FactorsOwnedKept(cfg: Config, db: DB, call: Call)
    requires KeysOwned(db.totp, db.accounts.Keys) && BackupsOwned(db.backups, db.accounts.Keys) && !call.action.DeleteDue?
    ensures KeysOwned(Apply(cfg, db, call).db.totp, db.accounts.Keys)
    ensures BackupsOwned(Apply(cfg, db, call).db.backups, db.accounts.Keys)
  {
    hide *;
    OtherFactorsOwned(cfg, db, call);
    Writers(call.action);
    Dispatched(cfg, db, call);
    match call.action {
      case Attempt(id, cid, flow, who, proof) => AttemptSpends(cfg, db, call.now, id, cid, flow, who, proof);
      case ConfirmTotp(who, digits) => ConfirmTotpOwned(cfg, db, call.now, who, digits);
      case RotateBackupCodes(who, grant) => RotateOwned(db, call.now, who, grant);
      case DeleteTotp(who, grant) => DeleteTotpShrinks(db, call.now, who, grant);
      case _ =>
    }
  }

  lemma Writers(a: Action)
    ensures WritesTotp(a) <==> a.Attempt? || a.ConfirmTotp? || a.DeleteTotp? || a.DeleteDue?
    ensures WritesBackups(a) <==> a.Attempt? || a.ConfirmTotp? || a.RotateBackupCodes? || a.DeleteDue?
  {
  }

  lemma OtherFactorsOwned(cfg: Config, db: DB, call: Call)
    requires KeysOwned(db.totp, db.accounts.Keys) && BackupsOwned(db.backups, db.accounts.Keys) && !call.action.DeleteDue?
    ensures var b, a := Apply(cfg, db, call).db, call.action;
      && (FactorsSpent(db, b) || !WritesTotp(a) || b.totp.Keys <= db.totp.Keys ==> KeysOwned(b.totp, db.accounts.Keys))
      && (FactorsSpent(db, b) || !WritesBackups(a) ==> BackupsOwned(b.backups, db.accounts.Keys))
  {
    hide Apply;
    EveryActionFramed(cfg, db, call);
  }

  lemma IdentitiesOwnedKept(cfg: Config, db: DB, call: Call)
    requires IdentitiesOwned(db.identities, db.accounts.Keys) && !call.action.DeleteDue?
    ensures IdentitiesOwned(Apply(cfg, db, call).db.identities, db.accounts.Keys)
  {
    hide *;
    Dispatched(cfg, db, call);
    match call.action {
      case FinishLink(who, grant, provider, subject) => FinishLinkOwned(db, call.now, who, grant, provider, subject);
      case UnlinkIdentity(who, grant, provider) => UnlinkDrops(db, call.now, who, grant, provider);
      case _ =>
    }
    OtherIdentitiesOwned(cfg, db, call);
  }

  lemma OtherIdentitiesOwned(cfg: Config, db: DB, call: Call)
    requires IdentitiesOwned(db.identities, db.accounts.Keys) && !call.action.DeleteDue?
    ensures var b, a := Apply(cfg, db, call).db, call.action;
      (!a.FinishLink? && !a.UnlinkIdentity?) || Within(b.identities, db.identities) ==> IdentitiesOwned(b.identities, db.accounts.Keys)
  {
    hide Apply;
    EveryActionFramed(cfg, db, call);
  }

  // ---------- processes ----------

  /** Only this process moves, and an account it is given is there. */
  ghost predicate OwnerKnown(a: DB, d: DB, id: Id) {
    && a.accounts.Keys <= d.accounts.Keys && id in d.procs && d.procs == a.procs[id := d.procs[id]]
    && (d.procs[id].account.Some? ==> (id in a.procs && d.procs[id].account == a.procs[id].account) || d.procs[id].account.value in d.accounts)
  }

  lemma KnownKeepsOwned(a: DB, d: DB, id: Id)
    requires ProcsOwned(a.procs, a.accounts.Keys) && OwnerKnown(a, d, id)
    ensures ProcsOwned(d.procs, d.accounts.Keys)
  {
  }

  lemma StartOwner(cfg: Config, db: DB, now: Time, name: string, who: Principal)
    requires StartTx(cfg, db, now, name, who).Ok? && db.supply !in db.procs
    ensures OwnerKnown(db, StartTx(cfg, db, now, name, who).value.db, db.supply)
  {
    StartDecides(cfg, db, now, name, who);
    StartPrincipal(cfg, db, now, name, who);
    hide StartTx, ParsePurpose, Reusable, Finish, OwnerKnown;
    var d := Opened(cfg, db, now, ParsePurpose(name).value, who);
    OpenedOwner(cfg, db, now, ParsePurpose(name).value, who);
    if who.Bearer? && who.account in db.accounts {
      FinishOwner(cfg, db, d, db.supply, who.account, now);
    }
  }

  lemma StartPrincipal(cfg: Config, db: DB, now: Time, name: string, who: Principal)
    requires StartTx(cfg, db, now, name, who).Ok?
    ensures ParsePurpose(name).Ok? && (Sensitive(ParsePurpose(name).value) ==> who.Bearer? && who.account in db.accounts)
  {
    hide ParsePurpose, Reusable, Next, Opened, LiveSession;
  }

  lemma OpenedOwner(cfg: Config, db: DB, now: Time, purpose: Purpose, who: Principal)
    requires db.supply !in db.procs && (Sensitive(purpose) ==> who.Bearer? && who.account in db.accounts)
    ensures OwnerKnown(db, Opened(cfg, db, now, purpose, who), db.supply)
  {
  }

  lemma FinishOwner(cfg: Config, a: DB, d: DB, id: Id, account: Id, now: Time)
    requires id in d.procs && OwnerKnown(a, d, id) && (account in d.accounts || (id in a.procs && d.procs[id].account == a.procs[id].account == Some(account)))
    ensures OwnerKnown(a, Finish(cfg, d, id, account, now), id)
  {
  }

  lemma AfterFactorOwner(cfg: Config, a: DB, d: DB, now: Time, id: Id, cid: Id)
    requires id in a.procs && id in d.procs && OwnerKnown(a, d, id)
    ensures AfterFactor(cfg, d, now, id, cid).Ok? ==> OwnerKnown(a, AfterFactor(cfg, d, now, id, cid).value.db, id)
  {
    if d.procs[id].account.Some? {
      FinishOwner(cfg, a, d, id, d.procs[id].account.value, now);
    }
    hide OwnerKnown, Next, Finish;
  }

  lemma FailOwner(a: DB, d: DB, id: Id)
    requires id in a.procs && id in d.procs && OwnerKnown(a, d, id)
    ensures OwnerKnown(a, FailRegistration(d, id), id)
  {
    hide CancelPending;
  }

  lemma EnlistOwner(cfg: Config, a: DB, d: DB, id: Id, now: Time)
    requires id in a.procs && id in d.procs && id in d.signups && OwnerKnown(a, d, id)
    ensures OwnerKnown(a, Enlist(cfg, d, id, now), id)
  {
    var r := Register(d, id);
    assert r.procs == d.procs && d.supply in r.accounts && d.accounts.Keys <= r.accounts.Keys;
    hide Register;
    assert OwnerKnown(a, r, id);
    FinishOwner(cfg, a, r, id, d.supply, now);
    hide OwnerKnown, Finish;
  }

  lemma AfterSignUpOwner(cfg: Config, a: DB, d: DB, now: Time, id: Id, cid: Id, kind: Kind)
    requires id in a.procs && id in d.procs && OwnerKnown(a, d, id)
    ensures AfterSignUpStep(cfg, d, now, id, cid, kind).Ok? ==> OwnerKnown(a, AfterSignUpStep(cfg, d, now, id, cid, kind).value.db, id)
  {
    FailOwner(a, d, id);
    if id in d.signups {
      EnlistOwner(cfg, a, d, id, now);
    }
    hide OwnerKnown, FailRegistration, Enlist, AddressTaken, Next;
  }

  lemma ProceedOwner(cfg: Config, a: DB, v: DB, now: Time, id: Id, cid: Id, purpose: Purpose, kind: Kind)
    requires id in a.procs && id in v.procs && cid in v.steps && OwnerKnown(a, v, id)
    ensures Proceed(cfg, v, now, id, cid, purpose, kind).Ok? ==> OwnerKnown(a, Proceed(cfg, v, now, id, cid, purpose, kind).value.db, id)
  {
    var d := AcceptStep(v, id, cid, now);
    assert d.procs == v.procs && d.accounts == v.accounts;
    hide AcceptStep;
    assert OwnerKnown(a, d, id);
    AfterFactorOwner(cfg, a, d, now, id, cid);
    AfterSignUpOwner(cfg, a, d, now, id, cid, kind);
    hide OwnerKnown, AfterFactor, AfterSignUpStep;
  }

  lemma BindOwner(db: DB, id: Id)
    requires id in db.procs
    ensures forall a | a in db.accounts :: OwnerKnown(db, Bind(db, id, a), id)
  {
  }

  lemma SameOwner(db: DB, d: DB, id: Id)
    requires id in db.procs && d.procs == db.procs && d.accounts == db.accounts
    ensures OwnerKnown(db, d, id)
  {
  }

  lemma BindingProofsOwner(cfg: Config, db: DB, id: Id, p: Process, login: string, password: Store.Password, assertion: Assertion)
    requires id in db.procs
    ensures var r := VerifyPassword(cfg, db, id, p, login, password); r.Ok? ==> OwnerKnown(db, r.value.db, id)
    ensures var r := VerifyPasskey(cfg, db, id, p, assertion); r.Ok? ==> OwnerKnown(db, r.value.db, id)
  {
    hide OwnerKnown, PasswordFits, HasPasskey, Bind, AccountByLogin;
    BindOwner(db, id);
  }

  lemma StageProofsOwner(cfg: Config, db: DB, id: Id, p: Process, raw: string, password: Store.Password)
    requires id in db.procs
    ensures var r := VerifyRegistration(cfg, db, id, p, raw); r.Ok? ==> r.value.db.procs == db.procs && r.value.db.accounts == db.accounts
    ensures var r := VerifySetup(db, id, p, password); r.Ok? ==> r.value.db.procs == db.procs && r.value.db.accounts == db.accounts
  {
  }

  lemma FactorProofsOwner(cfg: Config, db: DB, now: Time, id: Id, p: Process, digits: string, code: Id)
    requires id in db.procs
    ensures var r := VerifyTotp(cfg, db, now, id, p, digits); r.Ok? ==> r.value.db.procs == db.procs && r.value.db.accounts == db.accounts
    ensures var r := VerifyBackup(db, id, p, code); r.Ok? ==> r.value.db.procs == db.procs && r.value.db.accounts == db.accounts
  {
    hide TotpStep;
  }

  lemma VerifyOwner(cfg: Config, db: DB, now: Time, id: Id, p: Process, cid: Id, step: Step, proof: Proof)
    requires id in db.procs && Verify(cfg, db, now, id, p, cid, step, proof).Ok?
    ensures OwnerKnown(db, Verify(cfg, db, now, id, p, cid, step, proof).value.db, id)
  {
    hide OwnerKnown, VerifyRegistration, VerifySetup, VerifyPassword, VerifyPasskey, VerifyTotp, VerifyBackup;
    var d := Verify(cfg, db, now, id, p, cid, step, proof).value.db;
    match proof
    case PasswordProof(login, password) => BindingProofsOwner(cfg, db, id, p, login, password, Unparsable);
    case PasskeyProof(assertion) => BindingProofsOwner(cfg, db, id, p, "", [], assertion);
    case RegistrationProof(raw) => StageProofsOwner(cfg, db, id, p, raw, []); SameOwner(db, d, id);
    case SetupProof(password) => StageProofsOwner(cfg, db, id, p, "", password); SameOwner(db, d, id);
    case TotpProof(digits) => FactorProofsOwner(cfg, db, now, id, p, digits, 0); SameOwner(db, d, id);
    case BackupProof(code) => FactorProofsOwner(cfg, db, now, id, p, "", code); SameOwner(db, d, id);
    case EmailProof(_) => SameOwner(db, db, id);
    case OtherProof(_) =>
  }

  lemma CountOwner(cfg: Config, db: DB, id: Id, cid: Id)
    requires id in db.procs && cid in db.steps
    ensures OwnerKnown(db, CountFailure(cfg, db, id, cid), id)
  {
  }

  lemma AttemptOwner(cfg: Config, db: DB, now: Time, id: Id, cid: Id, flow: Id, who: Principal, proof: Proof)
    requires AttemptTx(cfg, db, now, id, cid, flow, who, proof).Ok?
    ensures OwnerKnown(db, AttemptTx(cfg, db, now, id, cid, flow, who, proof).value.db, id)
  {
    hide Next, AttemptTx, OwnerKnown, Verify, Proceed, CountFailure, FailureAnswer;
    AttemptAdmits(cfg, db, now, id, cid, flow, who, proof);
    var verdict := Verify(cfg, db, now, id, db.procs[id], cid, db.steps[cid], proof);
    if verdict.Ok? {
      VerifyOwner(cfg, db, now, id, db.procs[id], cid, db.steps[cid], proof);
      ProceedOwner(cfg, db, verdict.value.db, now, id, cid, db.procs[id].purpose, db.steps[cid].kind);
    } else {
      CountOwner(cfg, db, id, cid);
    }
  }

  lemma FinishProviderOwner(cfg: Config, db: DB, now: Time, id: Id, cid: Id, flow: Id, who: Principal, kind: Kind, subject: string)
    requires FinishProviderTx(cfg, db, now, id, cid, flow, who, kind, subject).Ok?
    ensures OwnerKnown(db, FinishProviderTx(cfg, db, now, id, cid, flow, who, kind, subject).value.db, id)
  {
    hide Next, FinishProviderTx, IdentityOwner, OwnerKnown, AcceptStep, AfterFactor;
    FinishAdmits(cfg, db, now, id, cid, flow, who, kind, subject);
    var owner := IdentityOwner(db.identities, db.supply, ProviderOf(kind), subject).value;
    BindOwner(db, id);
    var d := Bind(db, id, owner);
    BoundThenAccepted(db, d, id, cid, now);
    AfterFactorOwner(cfg, db, AcceptStep(d, id, cid, now), now, id, cid);
  }

  lemma BoundThenAccepted(db: DB, d: DB, id: Id, cid: Id, now: Time)
    requires OwnerKnown(db, d, id) && cid in d.steps && id in db.procs
    ensures OwnerKnown(db, AcceptStep(d, id, cid, now), id) && id in db.procs && id in AcceptStep(d, id, cid, now).procs
  {
    hide CancelPending;
  }

  lemma QuietKeepsOwners(a: DB, b: DB)
    requires Quiet(a, b) && ProcsOwned(a.procs, a.accounts.Keys) && a.accounts.Keys <= b.accounts.Keys
    ensures ProcsOwned(b.procs, b.accounts.Keys)
  {
    forall p | p in b.procs && b.procs[p].account.Some?
      ensures b.procs[p].account.value in b.accounts
    {
      assert Calmer(a.procs[p], b.procs[p]);
    }
  }

  lemma ProcsOwnedKept(cfg: Config, db: DB, clock: Time, call: Call)
    requires FlowsOk(cfg, db, clock) && clock <= call.now && ProcsOwned(db.procs, db.accounts.Keys) && !call.action.DeleteDue?
    ensures ProcsOwned(Apply(cfg, db, call).db.procs, Apply(cfg, db, call).db.accounts.Keys)
  {
    hide Core, ProcsOwned, Transact, StepKeysOk;
    if !Noisy(call.action) {
      AccountsStay(cfg, db, clock, call);
      InvRooted(cfg, db, clock);
      OthersAreQuiet(cfg, db, call);
      QuietKeepsOwners(db, Apply(cfg, db, call).db);
    } else if Transact(cfg, db, call.now, call.action).Ok? {
      assert db.supply !in db.procs;
      NoisyOwner(cfg, db, call);
      KnownKeepsOwned(db, Apply(cfg, db, call).db, Moving(db, call.action));
    }
  }

  /** The process that an action on flows moves. */
  function Moving(db: DB, a: Action): Id
    requires Noisy(a)
  {
    match a
    case Start(_, _) => db.supply
    case CreateChallenge(id, _, _, _, _, _, _) => id
    case Attempt(id, _, _, _, _) => id
    case FinishProvider(id, _, _, _, _, _) => id
    case RejectProvider(id, _, _, _) => id
  }

  lemma NoisyOwner(cfg: Config, db: DB, call: Call)
    requires Noisy(call.action) && Transact(cfg, db, call.now, call.action).Ok? && db.supply !in db.procs
    ensures OwnerKnown(db, Apply(cfg, db, call).db, Moving(db, call.action))
  {
    hide OwnerKnown, StartTx, CreateChallengeTx, AttemptTx, FinishProviderTx, RejectProviderTx;
    match call.action
    case Start(name, who) => StartOwner(cfg, db, call.now, name, who);
    case CreateChallenge(id, flow, kind, who, options, code, libraryOk) =>
      ChallengeOwner(cfg, db, call.now, id, flow, kind, who, options, code, libraryOk);
    case Attempt(id, cid, flow, who, proof) => AttemptOwner(cfg, db, call.now, id, cid, flow, who, proof);
    case FinishProvider(id, cid, flow, who, kind, subject) => FinishProviderOwner(cfg, db, call.now, id, cid, flow, who, kind, subject);
    case RejectProvider(id, cid, flow, who) => RejectOwner(cfg, db, call.now, id, cid, flow, who);
  }

  lemma RejectOwner(cfg: Config, db: DB, now: Time, id: Id, cid: Id, flow: Id, who: Principal)
    requires RejectProviderTx(cfg, db, now, id, cid, flow, who).Ok?
    ensures OwnerKnown(db, RejectProviderTx(cfg, db, now, id, cid, flow, who).value.db, id)
  {
    hide OwnerKnown, CountFailure, FailureAnswer, PurposePrincipal;
    CountOwner(cfg, db, id, cid);
  }

  lemma ChallengeOwner(cfg: Config, db: DB, now: Time, id: Id, flow: Id, kind: Kind, who: Principal, options: OAuthOptions, code: Id,
                       libraryOk: bool)
    requires CreateChallengeTx(cfg, db, now, id, flow, kind, who, options, code, libraryOk).Ok?
    ensures OwnerKnown(db, CreateChallengeTx(cfg, db, now, id, flow, kind, who, options, code, libraryOk).value.db, id)
  {
    hide OwnerKnown, CreateChallengeTx;
    FrameCreateChallenge(cfg, db, now, id, flow, kind, who, options, code, libraryOk);
    CreateChallengeMakes(cfg, db, now, id, flow, kind, who, options, code, libraryOk);
    SameOwner(db, CreateChallengeTx(cfg, db, now, id, flow, kind, who, options, code, libraryOk).value.db, id);
  }

  // ---------- over runs ----------

  lemma OwnedKept(cfg: Config, db: DB, clock: Time, call: Call)
    requires FlowsOk(cfg, db, clock) && clock <= call.now && Owned(db)
    ensures Owned(Apply(cfg, db, call).db)
  {
    hide FlowsOk, SessionsOwned, ProcsOwned, KeysOwned, PasskeysOwned, IdentitiesOwned, BackupsOwned, Transact;
    if call.action.DeleteDue? {
      DeletionKeepsOwned(cfg, db, call);
    } else {
      TablesOwnedKept(cfg, db, clock, call);
    }
  }

  lemma DeletionKeepsOwned(cfg: Config, db: DB, call: Call)
    requires Owned(db) && call.action.DeleteDue?
    ensures Owned(Apply(cfg, db, call).db)
  {
    hide *;
    Dispatched(cfg, db, call);
    DeleteDueOwned(db, call.now);
  }

  lemma TablesOwnedKept(cfg: Config, db: DB, clock: Time, call: Call)
    requires FlowsOk(cfg, db, clock) && clock <= call.now && Owned(db) && !call.action.DeleteDue?
    ensures Owned(Apply(cfg, db, call).db)
  {
    hide Core, SessionsOwned, ProcsOwned, KeysOwned, PasskeysOwned, IdentitiesOwned, BackupsOwned, Apply;
    AccountsStay(cfg, db, clock, call);
    SessionsOwnedKept(cfg, db, call);
    ProcsOwnedKept(cfg, db, clock, call);
    SetupsOwnedKept(cfg, db, call);
    RequestsOwnedKept(cfg, db, call);
    FactorsOwnedKept(cfg, db, call);
    IdentitiesOwnedKept(cfg, db, call);
    TablesOwnedLater(db, Apply(cfg, db, call).db);
  }

  lemma TablesOwnedLater(a: DB, b: DB)
    requires a.accounts.Keys <= b.accounts.Keys && ProcsOwned(b.procs, b.accounts.Keys)
    requires SessionsOwned(b.sessions, a.accounts.Keys) && KeysOwned(b.totp, a.accounts.Keys) && KeysOwned(b.activations, a.accounts.Keys)
    requires PasskeysOwned(b.passkeys, a.accounts.Keys) && IdentitiesOwned(b.identities, a.accounts.Keys) && BackupsOwned(b.backups, a.accounts.Keys)
    requires KeysOwned(b.changes, a.accounts.Keys) && KeysOwned(b.resets, a.accounts.Keys) && KeysOwned(b.deletions, a.accounts.Keys)
    ensures Owned(b)
  {
  }

  lemma {:induction false} OwnedThroughout(cfg: Config, db: DB, clock: Time, run: seq<Call>, now: Time)
    requires Inv(cfg, db, clock) && Follows(clock, run, now) && Owned(db)
    ensures Owned(RunFrom(cfg, db, run))
    decreases |run|
  {
    hide Inv, Apply, Owned;
    if run != [] {
      var n := |run| - 1;
      FollowsPrefix(clock, run, now);
      OwnedThroughout(cfg, db, clock, run[..n], run[n].now);
      InvThroughout(cfg, db, clock, run[..n], run[n].now);
      InvFlows(cfg, RunFrom(cfg, db, run[..n]), run[n].now);
      OwnedKept(cfg, RunFrom(cfg, db, run[..n]), run[n].now, run[n]);
    }
  }

  /** In every reachable state every reference points at a row. */
  lemma ReferencesHold(cfg: Config, run: seq<Call>, now: Time)
    requires Ordered(run, now)
    ensures Refs(After(cfg, run))
  {
    hide Transact;
    var clock := if run == [] then now else run[0].now;
    assert Follows(clock, run, now);
    hide Inv, Linked, Rooted, Owned, RunFrom, Ordered, Apply;
    EmptyInv(cfg, clock);
    EmptyRefs();
    LinkedThroughout(cfg, EMPTY, clock, run, now);
    OwnedThroughout(cfg, EMPTY, clock, run, now);
    Reachable(cfg, run, now);
    RootedInv(cfg, After(cfg, run), now);
  }

  lemma EmptyRefs()
    ensures Linked(EMPTY) && Owned(EMPTY)
  {
  }

  lemma RootedInv(cfg: Config, db: DB, clock: Time)
    requires Inv(cfg, db, clock)
    ensures Rooted(db)
  {
    hide Core, Keys, Rooted;
    InvRooted(cfg, db, clock);
  }
}
