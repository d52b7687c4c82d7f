/** Accounts, deletion, factors and mail: dead rows make no difference. */
module SimilarAccounts {
  import opened Base
  import opened Secrets
  import opened Store
  import opened Processes
  import opened Accounts
  import opened Totps
  import opened Mails
  import opened CredentialOps
  import opened Protocol
  import opened Trimming
  import opened Similarity

  lemma SetUsernameAlike(cfg: Config, a: DB, b: DB, now: Time, who: Principal, username: string)
    requires SameView(a, b, now, who)
    ensures Alike(a, b, SetUsernameTx(cfg, a, now, who, username), SetUsernameTx(cfg, b, now, who, username))
  {
    hide ValidUsername, ChooseUsername, Alike;
    if FullPrincipal(a, now, who) {
      ChooseUsernameAlike(a, b, who.account, cfg.normalize(username));
    }
    RefusedAlike(a, b, Invalid);
    RefusedAlike(a, b, Forbidden);
  }

  lemma RefusedAlike(a: DB, b: DB, e: Error)
    ensures Alike(a, b, Err(e), Err(e))
  {
  }

  lemma ChooseUsernameAlike(a: DB, b: DB, account: Id, name: string)
    requires SameShared(a, b) && account in a.accounts
    ensures Alike(a, b, ChooseUsername(a, account, name), ChooseUsername(b, account, name))
  {
    hide UsernameTaken, SetAccount;
    SetAccountAlike(a, b, account, a.accounts[account].(username := Some(name)));
  }

  lemma PatchDeletionAlike(a: DB, b: DB, now: Time, who: Principal, shared: bool)
    requires SameView(a, b, now, who)
    ensures Alike(a, b, PatchDeletionTx(a, now, who, shared), PatchDeletionTx(b, now, who, shared))
  {
    hide FullPrincipal, LiveSession;
  }

  lemma CancelDeletionAlike(a: DB, b: DB, now: Time, who: Principal)
    requires SameView(a, b, now, who)
    ensures Alike(a, b, CancelDeletionTx(a, now, who), CancelDeletionTx(b, now, who))
  {
    hide FullPrincipal, LiveSession;
  }

  lemma SetAccountAlike(a: DB, b: DB, x: Id, row: Account)
    requires SameShared(a, b)
    ensures var c := SetAccount(a, x, row); c == WithShared(a, c) && SetAccount(b, x, row) == WithShared(b, c) && c.supply == a.supply
  {
  }

  lemma SetBlockedAlike(a: DB, b: DB, now: Time, account: Id, blocked: bool)
    requires SameShared(a, b)
    ensures Alike(a, b, SetBlockedTx(a, account, blocked), SetBlockedTx(b, account, blocked))
  {
    if account in a.accounts {
      SetAccountAlike(a, b, account, a.accounts[account].(blocked := blocked));
    }
    assert a == WithShared(a, a) && b == WithShared(b, a);
    hide SetAccount, WithShared;
  }

  // ---------- transactions that spend a grant first ----------

  lemma TrimShares(cfg: Config, a: DB, b: DB, now: Time)
    requires Trim(cfg, a, b, now)
    ensures SameShared(a, b)
  {
    hide SameShared;
  }

  lemma ScheduleAlike(a: DB, b: DB, now: Time, account: Id, shared: bool, delay: int)
    requires SameShared(a, b) && account in a.accounts
    ensures Alike(a, b, ScheduleDeletion(a, now, account, shared, delay), ScheduleDeletion(b, now, account, shared, delay))
  {
  }

  lemma ScheduleSimilar(cfg: Config, a: DB, b: DB, now: Time, account: Id, shared: bool, delay: int)
    requires Trim(cfg, a, b, now) && account in a.accounts
    ensures account in b.accounts
    ensures Similar(cfg, ScheduleDeletion(a, now, account, shared, delay), ScheduleDeletion(b, now, account, shared, delay), now)
  {
    hide Trim, ScheduleDeletion, Alike, Similar;
    TrimShares(cfg, a, b, now);
    ScheduleAlike(a, b, now, account, shared, delay);
    AlikeSimilar(cfg, a, b, ScheduleDeletion(a, now, account, shared, delay), ScheduleDeletion(b, now, account, shared, delay), now);
  }

  lemma RequestDeletionSimilar(cfg: Config, a: DB, b: DB, now: Time, who: Principal, grant: Id, shared: bool, delay: int)
    requires Pair(cfg, a, b, now)
    ensures Similar(cfg, RequestDeletionTx(a, now, who, grant, shared, delay), RequestDeletionTx(b, now, who, grant, shared, delay), now)
  {
    hide ScheduleDeletion, ConsumeGrant, Trim, Pair, Spendable, HoldsGrant, PurposePrincipal;
    SpendSimilar(cfg, a, b, now, grant, AccountDeletion, who);
    var r, t := ConsumeGrant(a, now, grant, AccountDeletion, who), ConsumeGrant(b, now, grant, AccountDeletion, who);
    if r.Ok? {
      ScheduleSimilar(cfg, r.value.db, t.value.db, now, r.value.account, shared, delay);
    }
  }

  lemma EnrolmentSimilar(cfg: Config, a: DB, b: DB, now: Time, account: Id, session: Id)
    requires Trim(cfg, a, b, now)
    ensures Similar(cfg, BeginEnrolment(a, now, account, session), BeginEnrolment(b, now, account, session), now)
  {
    hide Trim;
    TrimShares(cfg, a, b, now);
    if account !in a.totp {
      var row := Activation(session, a.supply, now + ACTIVATION_TTL);
      var c, d := a.(activations := a.activations[account := row]), b.(activations := b.activations[account := row]);
      TrimActivationRow(cfg, a, b, now, account, row);
      TrimSharedChange(cfg, c, d, c.(supply := a.supply + 1), d.(supply := a.supply + 1), now);
    }
  }

  lemma StartTotpSimilar(cfg: Config, a: DB, b: DB, now: Time, who: Principal, grant: Id)
    requires Pair(cfg, a, b, now)
    ensures Similar(cfg, StartTotpTx(a, now, who, grant), StartTotpTx(b, now, who, grant), now)
  {
    hide BeginEnrolment, ConsumeGrant, Trim, Pair, Spendable, HoldsGrant, PurposePrincipal;
    SpendSimilar(cfg, a, b, now, grant, TotpEnrollment, who);
    var r, t := ConsumeGrant(a, now, grant, TotpEnrollment, who), ConsumeGrant(b, now, grant, TotpEnrollment, who);
    if r.Ok? {
      EnrolmentSimilar(cfg, r.value.db, t.value.db, now, r.value.account, who.session);
    }
  }

  // A shared table changes and the account's processes are invalidated.
  lemma ChangeAndInvalidate(cfg: Config, a: DB, b: DB, c: DB, d: DB, account: Id, now: Time)
    requires Trim(cfg, a, b, now) && a.supply <= c.supply && c == WithShared(a, c) && d == WithShared(b, c)
    ensures Trim(cfg, Invalidate(c, account, now), Invalidate(d, account, now), now)
  {
    hide Trim, WithShared, Invalidate;
    TrimSharedChange(cfg, a, b, c, d, now);
    TrimInvalidate(cfg, c, d, account, now);
  }

  lemma RemoveTotpSimilar(cfg: Config, a: DB, b: DB, now: Time, account: Id)
    requires Trim(cfg, a, b, now)
    ensures Similar(cfg, Ok(RemoveTotp(a, now, account)), Ok(RemoveTotp(b, now, account)), now)
  {
    hide Trim, Invalidate;
    TrimShares(cfg, a, b, now);
    ChangeAndInvalidate(cfg, a, b, a.(totp := a.totp - {account}), b.(totp := b.totp - {account}), account, now);
  }

  lemma DeleteTotpSimilar(cfg: Config, a: DB, b: DB, now: Time, who: Principal, grant: Id)
    requires Pair(cfg, a, b, now)
    ensures Similar(cfg, DeleteTotpTx(a, now, who, grant), DeleteTotpTx(b, now, who, grant), now)
  {
    hide RemoveTotp, ConsumeGrant, Trim, Pair, Spendable, HoldsGrant, PurposePrincipal;
    SpendSimilar(cfg, a, b, now, grant, TotpRemoval, who);
    var r, t := ConsumeGrant(a, now, grant, TotpRemoval, who), ConsumeGrant(b, now, grant, TotpRemoval, who);
    if r.Ok? {
      RemoveTotpSimilar(cfg, r.value.db, t.value.db, now, r.value.account);
    }
  }

  lemma ReplaceCodesAlike(a: DB, b: DB, account: Id)
    requires SameShared(a, b)
    ensures Alike(a, b, Ok(ReplaceBackupCodes(a, account)), Ok(ReplaceBackupCodes(b, account)))
  {
    hide BackupHashes;
  }

  lemma RotateSimilar(cfg: Config, a: DB, b: DB, now: Time, account: Id)
    requires Trim(cfg, a, b, now)
    ensures Similar(cfg, Ok(RotateCodes(a, now, account)), Ok(RotateCodes(b, now, account)), now)
  {
    hide Trim, Invalidate, ReplaceBackupCodes;
    TrimShares(cfg, a, b, now);
    ReplaceCodesAlike(a, b, account);
    ChangeAndInvalidate(cfg, a, b, ReplaceBackupCodes(a, account).db, ReplaceBackupCodes(b, account).db, account, now);
  }

  lemma RotateBackupCodesSimilar(cfg: Config, a: DB, b: DB, now: Time, who: Principal, grant: Id)
    requires Pair(cfg, a, b, now)
    ensures Similar(cfg, RotateBackupCodesTx(a, now, who, grant), RotateBackupCodesTx(b, now, who, grant), now)
  {
    hide RotateCodes, ConsumeGrant, Trim, Pair, Spendable, HoldsGrant, PurposePrincipal;
    SpendSimilar(cfg, a, b, now, grant, BackupCodesRotation, who);
    var r, t := ConsumeGrant(a, now, grant, BackupCodesRotation, who), ConsumeGrant(b, now, grant, BackupCodesRotation, who);
    if r.Ok? {
      RotateSimilar(cfg, r.value.db, t.value.db, now, r.value.account);
    }
  }

  /** The one operation that can meet an expired row where a cleaned state has none. */
  predicate FreshChange(a: DB, b: DB, account: Id) {
    account in a.changes ==> account in b.changes
  }

  lemma SameChangeRow(cfg: Config, a: DB, b: DB, now: Time, account: Id)
    requires Trim(cfg, a, b, now) && FreshChange(a, b, account)
    ensures account in b.changes <==> account in a.changes
  {
    hide TrimFlows, SameShared, TrimOAuth, TrimResets, TrimActivations, TrimPasskeyRequests;
  }

  lemma AskPreviousSimilar(cfg: Config, a: DB, b: DB, now: Time, account: Id, email: string, baseOk: bool)
    requires Trim(cfg, a, b, now) && account in a.accounts && FreshChange(a, b, account)
    ensures account in b.accounts
    ensures Similar(cfg, AskPreviousAddress(a, now, account, email, baseOk), AskPreviousAddress(b, now, account, email, baseOk), now)
  {
    hide Trim, FreshChange;
    TrimShares(cfg, a, b, now);
    SameChangeRow(cfg, a, b, now, account);
    if AskPreviousAddress(a, now, account, email, baseOk).Ok? {
      var row := EmailChangeRequest(a.accounts[account].email, email, AwaitingPrevious, Digest(EmailChangeTag, 0, a.supply), now + LINK_TTL);
      var c, d := a.(changes := a.changes[account := row]), b.(changes := b.changes[account := row]);
      TrimChangeRow(cfg, a, b, now, account, row);
      TrimSharedChange(cfg, c, d, AskPreviousAddress(a, now, account, email, baseOk).value.db,
                       AskPreviousAddress(b, now, account, email, baseOk).value.db, now);
    }
  }

  lemma ChangeEmailSimilar(cfg: Config, a: DB, b: DB, now: Time, who: Principal, grant: Id, email: string, baseOk: bool)
    requires Pair(cfg, a, b, now) && (who.Bearer? ==> FreshChange(a, b, who.account))
    ensures Similar(cfg, ChangeEmailTx(cfg, a, now, who, grant, email, baseOk), ChangeEmailTx(cfg, b, now, who, grant, email, baseOk), now)
  {
    hide AskPreviousAddress, ConsumeGrant, Trim, Pair, Spendable, HoldsGrant, PurposePrincipal;
    SpendSimilar(cfg, a, b, now, grant, EmailChanging, who);
    var r, t := ConsumeGrant(a, now, grant, EmailChanging, who), ConsumeGrant(b, now, grant, EmailChanging, who);
    if r.Ok? {
      AskPreviousSimilar(cfg, r.value.db, t.value.db, now, r.value.account, cfg.normalize(email), baseOk);
    }
  }

  lemma LinkToSimilar(cfg: Config, a: DB, b: DB, now: Time, account: Id, provider: Provider, subject: string)
    requires Trim(cfg, a, b, now)
    ensures Similar(cfg, LinkTo(a, now, account, provider, subject), LinkTo(b, now, account, provider, subject), now)
  {
    hide Trim, Invalidate, IdentityTaken;
    TrimShares(cfg, a, b, now);
    var key := IdentityKey(account, provider);
    ChangeAndInvalidate(cfg, a, b, a.(identities := a.identities[key := subject]), b.(identities := b.identities[key := subject]), account, now);
  }

  lemma FinishLinkSimilar(cfg: Config, a: DB, b: DB, now: Time, who: Principal, grant: Id, provider: Provider, subject: string)
    requires Pair(cfg, a, b, now)
    ensures Similar(cfg, FinishLinkTx(a, now, who, grant, provider, subject), FinishLinkTx(b, now, who, grant, provider, subject), now)
  {
    hide LinkTo, ConsumeGrant, Trim, Pair, Spendable, HoldsGrant, PurposePrincipal;
    SpendSimilar(cfg, a, b, now, grant, IdentityLink, who);
    var r, t := ConsumeGrant(a, now, grant, IdentityLink, who), ConsumeGrant(b, now, grant, IdentityLink, who);
    if r.Ok? {
      LinkToSimilar(cfg, r.value.db, t.value.db, now, r.value.account, provider, subject);
    }
  }

  lemma SameOtherCredential(a: DB, b: DB, account: Id, identity: Option<IdentityKey>, passkey: Option<Id>)
    requires SameShared(a, b)
    ensures HasOtherCredential(a, account, identity, passkey) <==> HasOtherCredential(b, account, identity, passkey)
  {
  }

  lemma UnlinkSimilar(cfg: Config, a: DB, b: DB, now: Time, account: Id, provider: Provider)
    requires Trim(cfg, a, b, now)
    ensures Similar(cfg, Unlink(a, now, account, provider), Unlink(b, now, account, provider), now)
  {
    hide Trim, Invalidate, HasOtherCredential;
    TrimShares(cfg, a, b, now);
    var key := IdentityKey(account, provider);
    SameOtherCredential(a, b, account, Some(key), None);
    ChangeAndInvalidate(cfg, a, b, a.(identities := a.identities - {key}), b.(identities := b.identities - {key}), account, now);
  }

  lemma UnlinkIdentitySimilar(cfg: Config, a: DB, b: DB, now: Time, who: Principal, grant: Id, provider: Provider)
    requires Pair(cfg, a, b, now)
    ensures Similar(cfg, UnlinkIdentityTx(a, now, who, grant, provider), UnlinkIdentityTx(b, now, who, grant, provider), now)
  {
    hide Unlink, ConsumeGrant, Trim, Pair, Spendable, HoldsGrant, PurposePrincipal;
    SpendSimilar(cfg, a, b, now, grant, IdentityUnlink, who);
    var r, t := ConsumeGrant(a, now, grant, IdentityUnlink, who), ConsumeGrant(b, now, grant, IdentityUnlink, who);
    if r.Ok? {
      UnlinkSimilar(cfg, r.value.db, t.value.db, now, r.value.account, provider);
    }
  }

  lemma BeginPasskeySimilar(cfg: Config, a: DB, b: DB, now: Time, session: Id, libraryOk: bool)
    requires Trim(cfg, a, b, now)
    ensures Similar(cfg, BeginPasskey(a, now, session, libraryOk), BeginPasskey(b, now, session, libraryOk), now)
  {
    hide Trim;
    TrimShares(cfg, a, b, now);
    var row := PasskeyRequest(session, now + REQUEST_TTL);
    var c, d := a.(passkeyRequests := a.passkeyRequests[a.supply := row]), b.(passkeyRequests := b.passkeyRequests[a.supply := row]);
    TrimPasskeyRow(cfg, a, b, now, a.supply, row);
    TrimSharedChange(cfg, c, d, c.(supply := a.supply + 1), d.(supply := a.supply + 1), now);
  }

  lemma StartPasskeySimilar(cfg: Config, a: DB, b: DB, now: Time, who: Principal, grant: Id, libraryOk: bool)
    requires Pair(cfg, a, b, now)
    ensures Similar(cfg, StartPasskeyTx(cfg, a, now, who, grant, libraryOk), StartPasskeyTx(cfg, b, now, who, grant, libraryOk), now)
  {
    hide BeginPasskey, ConsumeGrant, Trim, Pair, Spendable, HoldsGrant, PurposePrincipal;
    SpendSimilar(cfg, a, b, now, grant, PasskeyEnrollment, who);
    var r, t := ConsumeGrant(a, now, grant, PasskeyEnrollment, who), ConsumeGrant(b, now, grant, PasskeyEnrollment, who);
    if r.Ok? {
      BeginPasskeySimilar(cfg, r.value.db, t.value.db, now, who.session, libraryOk);
    }
  }

  lemma RemovePasskeySimilar(cfg: Config, a: DB, b: DB, now: Time, account: Id, passkey: Id)
    requires Trim(cfg, a, b, now)
    ensures Similar(cfg, RemovePasskey(a, now, account, passkey), RemovePasskey(b, now, account, passkey), now)
  {
    hide Trim, Invalidate, HasOtherCredential, WithoutPasskey;
    TrimShares(cfg, a, b, now);
    SameOtherCredential(a, b, account, None, Some(passkey));
    var left := WithoutPasskey(a.passkeys, account, passkey);
    ChangeAndInvalidate(cfg, a, b, a.(passkeys := left), b.(passkeys := left), account, now);
  }

  lemma DeletePasskeySimilar(cfg: Config, a: DB, b: DB, now: Time, who: Principal, grant: Id, passkey: Id)
    requires Pair(cfg, a, b, now)
    ensures Similar(cfg, DeletePasskeyTx(a, now, who, grant, passkey), DeletePasskeyTx(b, now, who, grant, passkey), now)
  {
    hide RemovePasskey, ConsumeGrant, Trim, Pair, Spendable, HoldsGrant, PurposePrincipal;
    SpendSimilar(cfg, a, b, now, grant, PasskeyRemoval, who);
    var r, t := ConsumeGrant(a, now, grant, PasskeyRemoval, who), ConsumeGrant(b, now, grant, PasskeyRemoval, who);
    if r.Ok? {
      RemovePasskeySimilar(cfg, r.value.db, t.value.db, now, r.value.account, passkey);
    }
  }
}
