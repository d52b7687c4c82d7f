/** A credential change ends every process of the account for good. */
module Barriers {
  import opened Base
  import opened Secrets
  import opened Store
  import opened Processes
  import opened Accounts
  import opened Totps
  import opened Mails
  import opened CredentialOps
  import opened Protocol
  import opened Invariant
  import opened KeyActions
  import opened Reachability
  import opened Evolution

  /** Every process of the account has lost its standing. */
  ghost predicate Voided(db: DB, account: Id) {
    forall p | p in db.procs && db.procs[p].account == Some(account) :: db.procs[p].invalid.Some?
  }

  lemma InvalidateVoids(db: DB, account: Id, now: Time)
    ensures Voided(Invalidate(db, account, now), account)
  {
  }

  lemma DropSessionsKeepsVoid(db: DB, account: Id, gone: set<Id>)
    requires Voided(db, account)
    ensures Voided(DropSessions(db, gone), account)
  {
  }

  // ---------- the ten changes ----------

  /** The account whose credentials the committed call changes, given the state before it. */
  function ChangedAccount(cfg: Config, db: DB, call: Call): Option<Id> {
    if Transact(cfg, db, call.now, call.action).Err? then None
    else
      match call.action
      case SetPassword(who, _, password) =>
        if who.Bearer? && who.account in db.accounts && !SamePassword(cfg, db.accounts[who.account], password) then Some(who.account) else None
      case ConfirmPasswordReset(link, _) => ResetByToken(db.resets, db.supply, Digest(ResetTag, 0, link))
      case ConfirmEmail(link, _) =>
        var found := Changing(db, call.now, link);
        if found.Some? && db.changes[found.value].stage == AwaitingNew then found else None
      case ConfirmTotp(who, _) => if who.Bearer? then Some(who.account) else None
      case DeleteTotp(who, _) => if who.Bearer? then Some(who.account) else None
      case RotateBackupCodes(who, _) => if who.Bearer? then Some(who.account) else None
      case FinishLink(who, _, provider, _) =>
        if who.Bearer? && IdentityKey(who.account, provider) !in db.identities then Some(who.account) else None
      case UnlinkIdentity(who, _, _) => if who.Bearer? then Some(who.account) else None
      case RegisterPasskey(who, _, _, _) => if who.Bearer? then Some(who.account) else None
      case DeletePasskey(who, _, _) => if who.Bearer? then Some(who.account) else None
      case _ => None
  }

  predicate SamePassword(cfg: Config, a: Account, password: Store.Password) {
    a.password.Some? && cfg.bcryptMatches(a.password.value, password)
  }

  lemma ReplacePasswordVoids(db: DB, now: Time, account: Id, password: Store.Password, keep: set<Id>)
    requires account in db.accounts
    ensures var r := ReplacePassword(db, now, account, password, keep); r.Ok? && Voided(r.value.db, account)
  {
    var c := StorePassword(db, account, password);
    InvalidateVoids(c, account, now);
    var d := Notify(Invalidate(c, account, now), account, PasswordChanged);
    assert Voided(d, account);
    DropSessionsKeepsVoid(d, account, SessionsOf(d, account) - keep);
    hide Voided, Invalidate, DropSessions, StorePassword;
  }

  lemma SetPasswordVoids(cfg: Config, db: DB, now: Time, who: Principal, grant: Id, password: Store.Password)
    requires SetPasswordTx(cfg, db, now, who, grant, password).Ok?
    requires who.Bearer? && who.account in db.accounts && !SamePassword(cfg, db.accounts[who.account], password)
    ensures Voided(SetPasswordTx(cfg, db, now, who, grant, password).value.db, who.account)
  {
    hide ReplacePassword, ConsumeGrant, PurposePrincipal, Voided;
    if db.accounts[who.account].password.None? {
      ReplacePasswordVoids(db, now, who.account, password, {who.session});
    } else {
      ReplacePasswordVoids(ConsumeGrant(db, now, grant, PasswordChange, who).value.db, now, who.account, password, {who.session});
    }
  }

  lemma ConfirmPasswordResetVoids(db: DB, now: Time, link: Id, password: Store.Password)
    requires ConfirmPasswordResetTx(db, now, link, password).Ok?
    ensures var found := ResetByToken(db.resets, db.supply, Digest(ResetTag, 0, link));
      found.Some? && Voided(ConfirmPasswordResetTx(db, now, link, password).value.db, found.value)
  {
    hide ReplacePassword, ResetByToken, Voided;
    var a := ResetByToken(db.resets, db.supply, Digest(ResetTag, 0, link)).value;
    ReplacePasswordVoids(db.(resets := db.resets - {a}), now, a, password, {});
  }

  lemma ConfirmEmailVoids(db: DB, now: Time, link: Id, baseOk: bool)
    requires ConfirmEmailTx(db, now, link, baseOk).Ok?
    ensures Changing(db, now, link).Some?
    ensures var x := Changing(db, now, link).value;
      db.changes[x].stage == AwaitingNew ==> Voided(ConfirmEmailTx(db, now, link, baseOk).value.db, x)
  {
    ConfirmEmailDecides(db, now, link, baseOk);
    var x := Changing(db, now, link).value;
    hide ConfirmEmailTx, Changing;
    if db.changes[x].stage == AwaitingNew {
      InvalidateVoids(MoveAddress(db, x), x, now);
    }
    hide Voided, Invalidate, MoveAddress;
  }

  lemma ConfirmTotpVoids(cfg: Config, db: DB, now: Time, who: Principal, digits: string)
    requires ConfirmTotpTx(cfg, db, now, who, digits).Ok?
    ensures who.Bearer? && Voided(ConfirmTotpTx(cfg, db, now, who, digits).value.db, who.account)
  {
    hide TotpStep, DropSessions, Invalidate;
    var a := who.account;
    var key := db.activations[a].key;
    var used := TotpStep(cfg.mac, key, digits, now, -1);
    var c := db.(totp := db.totp[a := TotpFactor(key, used.value)], activations := db.activations - {a});
    InvalidateVoids(c, a, now);
    var d := Invalidate(c, a, now);
    var e := DropSessions(d, SessionsOf(d, a) - {who.session});
    DropSessionsKeepsVoid(d, a, SessionsOf(d, a) - {who.session});
    ReplacedCodesOnly(e, a);
    assert ReplaceBackupCodes(e, a).db.procs == e.procs;
    hide ReplaceBackupCodes;
  }

  lemma TotpChangesVoid(cfg: Config, db: DB, now: Time, who: Principal, grant: Id)
    ensures DeleteTotpTx(db, now, who, grant).Ok? ==> who.Bearer? && Voided(DeleteTotpTx(db, now, who, grant).value.db, who.account)
    ensures RotateBackupCodesTx(db, now, who, grant).Ok? ==> who.Bearer? && Voided(RotateBackupCodesTx(db, now, who, grant).value.db, who.account)
  {
    hide ConsumeGrant, Invalidate, Voided, ReplaceBackupCodes;
    if DeleteTotpTx(db, now, who, grant).Ok? {
      var s := ConsumeGrant(db, now, grant, TotpRemoval, who).value;
      InvalidateVoids(s.db.(totp := s.db.totp - {s.account}), s.account, now);
    }
    if RotateBackupCodesTx(db, now, who, grant).Ok? {
      var s := ConsumeGrant(db, now, grant, BackupCodesRotation, who).value;
      InvalidateVoids(ReplaceBackupCodes(s.db, s.account).db, s.account, now);
    }
  }

  lemma LinkVoids(db: DB, now: Time, who: Principal, grant: Id, provider: Provider, subject: string)
    ensures FinishLinkTx(db, now, who, grant, provider, subject).Ok? ==>
      who.Bearer? && (IdentityKey(who.account, provider) !in db.identities
                      ==> Voided(FinishLinkTx(db, now, who, grant, provider, subject).value.db, who.account))
  {
    hide ConsumeGrant, Invalidate, Voided, IdentityTaken, PurposePrincipal, HoldsGrant, Spendable;
    if FinishLinkTx(db, now, who, grant, provider, subject).Ok? {
      var s := ConsumeGrant(db, now, grant, IdentityLink, who).value;
      InvalidateVoids(s.db.(identities := s.db.identities[IdentityKey(s.account, provider) := subject]), s.account, now);
    }
  }

  lemma UnlinkVoids(db: DB, now: Time, who: Principal, grant: Id, provider: Provider)
    ensures UnlinkIdentityTx(db, now, who, grant, provider).Ok? ==>
      who.Bearer? && Voided(UnlinkIdentityTx(db, now, who, grant, provider).value.db, who.account)
  {
    hide ConsumeGrant, Invalidate, Voided, HasOtherCredential, PurposePrincipal, HoldsGrant, Spendable;
    if UnlinkIdentityTx(db, now, who, grant, provider).Ok? {
      var s := ConsumeGrant(db, now, grant, IdentityUnlink, who).value;
      InvalidateVoids(s.db.(identities := s.db.identities - {IdentityKey(s.account, provider)}), s.account, now);
    }
  }

  lemma RegisterPasskeyVoids(cfg: Config, db: DB, now: Time, who: Principal, request: Id, name: string, credential: Option<Id>)
    requires RegisterPasskeyTx(cfg, db, now, who, request, name, credential).Ok?
    ensures who.Bearer? && Voided(RegisterPasskeyTx(cfg, db, now, who, request, name, credential).value.db, who.account)
  {
    hide Invalidate, Voided;
    var d := db.(passkeys := db.passkeys[db.supply := PasskeyRow(who.account, credential.value)],
                 passkeyRequests := db.passkeyRequests - {request}, supply := db.supply + 1);
    InvalidateVoids(d, who.account, now);
  }

  lemma DeletePasskeyVoids(db: DB, now: Time, who: Principal, grant: Id, passkey: Id)
    requires DeletePasskeyTx(db, now, who, grant, passkey).Ok?
    ensures who.Bearer? && Voided(DeletePasskeyTx(db, now, who, grant, passkey).value.db, who.account)
  {
    hide ConsumeGrant, Invalidate, Voided, HasOtherCredential;
    var s := ConsumeGrant(db, now, grant, PasskeyRemoval, who).value;
    InvalidateVoids(s.db.(passkeys := WithoutPasskey(s.db.passkeys, s.account, passkey)), s.account, now);
  }

  lemma ChangesVoid(cfg: Config, db: DB, call: Call)
    requires ChangedAccount(cfg, db, call).Some?
    ensures Voided(Apply(cfg, db, call).db, ChangedAccount(cfg, db, call).value)
  {
    var now := call.now;
    hide Voided, SetPasswordTx, ConfirmPasswordResetTx, ConfirmEmailTx, ConfirmTotpTx, DeleteTotpTx, RotateBackupCodesTx,
      FinishLinkTx, UnlinkIdentityTx, RegisterPasskeyTx, DeletePasskeyTx, Changing, ResetByToken, SamePassword;
    match call.action
    case SetPassword(who, grant, password) => SetPasswordVoids(cfg, db, now, who, grant, password);
    case ConfirmPasswordReset(link, password) => ConfirmPasswordResetVoids(db, now, link, password);
    case ConfirmEmail(link, baseOk) => ConfirmEmailVoids(db, now, link, baseOk);
    case ConfirmTotp(who, digits) => ConfirmTotpVoids(cfg, db, now, who, digits);
    case DeleteTotp(who, grant) => TotpChangesVoid(cfg, db, now, who, grant);
    case RotateBackupCodes(who, grant) => TotpChangesVoid(cfg, db, now, who, grant);
    case FinishLink(who, grant, provider, subject) => LinkVoids(db, now, who, grant, provider, subject);
    case UnlinkIdentity(who, grant, provider) => UnlinkVoids(db, now, who, grant, provider);
    case RegisterPasskey(who, request, name, credential) => RegisterPasskeyVoids(cfg, db, now, who, request, name, credential);
    case DeletePasskey(who, grant, passkey) => DeletePasskeyVoids(db, now, who, grant, passkey);
  }

  // ---------- over runs ----------

  /** Nothing of the process is ever accepted: not its flow token, not its grant, not its evidence. */
  ghost predicate Ended(db: DB, id: Id) {
    id in db.procs ==>
      && db.procs[id].invalid.Some? && db.procs[id].grant.None?
      && (forall now, flow, who :: Load(db, now, id, flow, who).Err?)
      && (forall account, session, after :: !Evidence(db, id, account, session, after))
  }

  lemma VoidedRowEnds(cfg: Config, db: DB, clock: Time, id: Id)
    requires Inv(cfg, db, clock) && (id in db.procs ==> db.procs[id].invalid.Some?)
    ensures Ended(db, id)
  {
    hide StepsOk, OneEach, Budget, Stages, Keys, PurposePrincipal, FreshFirst, FreshSecond;
    if id in db.procs {
      assert ProcOk(cfg, db.procs[id], clock);
    }
  }

  /** Whatever an account had started before a credential change is over after it, in every later state. */
  lemma CredentialBarrier(cfg: Config, run: seq<Call>, now: Time, i: nat, j: nat, id: Id)
    requires Ordered(run, now) && i < j < |run|
    requires ChangedAccount(cfg, After(cfg, run[..i]), run[i]).Some?
    requires id in After(cfg, run[..i]).procs && After(cfg, run[..i]).procs[id].account == ChangedAccount(cfg, After(cfg, run[..i]), run[i])
    ensures Ended(After(cfg, run[..j]), id)
  {
    hide *;
    var a, b, c := After(cfg, run[..i]), After(cfg, run[..i + 1]), After(cfg, run[..j]);
    RunBetween(cfg, run, now, i, j);
    hide Inv, Apply, After, Evolved, ChangedAccount, Voided;
    ChangesVoid(cfg, a, run[i]);
    RunEvolves(cfg, b, run[i].now, run[i + 1..j], run[j].now);
    BoundRowVoided(cfg, a, b, run[i], id);
    VoidedRowStays(cfg, b, c, run[i].now, id);
    VoidedRowEnds(cfg, c, run[j].now, id);
  }

  lemma BoundRowVoided(cfg: Config, a: DB, b: DB, call: Call, id: Id)
    requires Inv(cfg, a, call.now) && b == Apply(cfg, a, call).db
    requires id in a.procs && a.procs[id].account.Some? && Voided(b, a.procs[id].account.value)
    ensures (id in b.procs ==> b.procs[id].invalid.Some?) && id < b.supply
  {
    hide Transact;
    EveryActionEvolves(cfg, a, call.now, call);
    hide Apply, StepsEvolve, Core, StepKeysOk;
  }

  lemma VoidedRowStays(cfg: Config, b: DB, c: DB, clock: Time, id: Id)
    requires Evolved(b, c) && id < b.supply && (id in b.procs ==> b.procs[id].invalid.Some?)
    ensures id in c.procs ==> c.procs[id].invalid.Some?
  {
    hide StepsEvolve;
  }
}
