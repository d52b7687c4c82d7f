/** internal/authentication/identities.go and passkeys.go: linking and removing credentials. */
module CredentialOps {
  import opened Base
  import opened Secrets
  import opened Store
  import opened Answers
  import opened Processes

  const REQUEST_TTL: Time := 5 * MINUTE

  // ---------- provider identities ----------

  function PrepareIdentityTx(cfg: Config, db: DB, now: Time, who: Principal, provider: Provider, redirect: string,
                             libraryOk: bool): Outcome {
    if !cfg.Offers(provider) then Err(Unavailable) else
    :- Need(redirect in cfg.redirects, Invalid);
    :- Need(FullPrincipal(db, now, who), Forbidden);
    :- Need(libraryOk, Internal);
    var state, nonce, verifier := db.supply, db.supply + 1, db.supply + 2;
    var request := OAuthRequest(provider, None, Some(who.session), Digest(BindingTag, 0, who.session), redirect,
                                Digest(NonceTag, 0, nonce), verifier, now + REQUEST_TTL);
    Ok(Commit(db.(oauth := db.oauth[Digest(StateTag, 0, state) := request], supply := db.supply + 3), Created(state)))
  }

  predicate SpendableLink(o: OAuthRequest, provider: Provider, session: Id, now: Time) {
    o.provider == provider && o.session == Some(session) && o.binding == Digest(BindingTag, 0, session) && o.expires > now
  }

  /** First transaction of LinkIdentity: the state is spent. */
  function BeginLinkTx(cfg: Config, db: DB, now: Time, who: Principal, provider: Provider, state: Id): Outcome {
    if !cfg.Offers(provider) then Err(Unavailable) else
    :- Need(FullPrincipal(db, now, who), Forbidden);
    var key := Digest(StateTag, 0, state);
    :- Need(key in db.oauth && SpendableLink(db.oauth[key], provider, who.session, now), Error.Credentials);
    var request := db.oauth[key];
    Ok(Commit(db.(oauth := db.oauth - {key}), Exchanging(request.nonce, request.redirect, Some(request.verifier))))
  }

  predicate IdentityTaken(identities: map<IdentityKey, string>, provider: Provider, subject: string) {
    exists i | i in identities :: i.provider == provider && identities[i] == subject
  }

  /** Second transaction of LinkIdentity; the flag says whether the identity is new. */
  function FinishLinkTx(db: DB, now: Time, who: Principal, grant: Id, provider: Provider, subject: string): Outcome {
    var spent :- ConsumeGrant(db, now, grant, Purpose.IdentityLink, who);
    LinkTo(spent.db, now, spent.account, provider, subject)
  }

  function LinkTo(db: DB, now: Time, account: Id, provider: Provider, subject: string): Outcome {
    var key := IdentityKey(account, provider);
    if key in db.identities then
      :- Need(db.identities[key] == subject, Conflict);
      Ok(Commit(db, Flag(false)))
    else
      :- Need(!IdentityTaken(db.identities, provider, subject), Conflict);
      Ok(Commit(Invalidate(db.(identities := db.identities[key := subject]), account, now), Flag(true)))
  }

  /** A password, another identity or a passkey that would remain. */
  predicate HasOtherCredential(db: DB, account: Id, identity: Option<IdentityKey>, passkey: Option<Id>) {
    || (account in db.accounts && db.accounts[account].password.Some?)
    || (exists i | i in db.identities :: i.account == account && identity != Some(i))
    || (exists k | k in db.passkeys :: db.passkeys[k].account == account && passkey != Some(k))
  }

  function UnlinkIdentityTx(db: DB, now: Time, who: Principal, grant: Id, provider: Provider): Outcome {
    var spent :- ConsumeGrant(db, now, grant, Purpose.IdentityUnlink, who);
    Unlink(spent.db, now, spent.account, provider)
  }

  function Unlink(db: DB, now: Time, account: Id, provider: Provider): Outcome {
    var key := IdentityKey(account, provider);
    :- Need(HasOtherCredential(db, account, Some(key), None), Conflict);
    Ok(Commit(Invalidate(db.(identities := db.identities - {key}), account, now), Done))
  }

  // ---------- passkeys ----------

  function StartPasskeyTx(cfg: Config, db: DB, now: Time, who: Principal, grant: Id, libraryOk: bool): Outcome {
    if !cfg.passkeys then Err(Unavailable) else
    var spent :- ConsumeGrant(db, now, grant, Purpose.PasskeyEnrollment, who);
    BeginPasskey(spent.db, now, who.session, libraryOk)
  }

  function BeginPasskey(db: DB, now: Time, session: Id, libraryOk: bool): Outcome {
    if !libraryOk then Err(Invalid)
    else Ok(Commit(db.(passkeyRequests := db.passkeyRequests[db.supply := PasskeyRequest(session, now + REQUEST_TTL)],
                       supply := db.supply + 1), Created(db.supply)))
  }

  /** credential is the verifier's answer to the registration response: the new credential, or nothing. */
  function RegisterPasskeyTx(cfg: Config, db: DB, now: Time, who: Principal, request: Id, name: string,
                             credential: Option<Id>): Outcome {
    if !cfg.passkeys then Err(Unavailable) else
    :- Need(0 < |name| <= 128, Invalid);
    :- Need(FullPrincipal(db, now, who), Forbidden);
    :- Need(request in db.passkeyRequests && db.passkeyRequests[request].session == who.session
            && db.passkeyRequests[request].expires > now, Invalid);
    :- Need(credential.Some?, Error.Credentials);
    :- Need(forall k | k in db.passkeys :: db.passkeys[k].credential != credential.value, Conflict);
    var d := db.(passkeys := db.passkeys[db.supply := PasskeyRow(who.account, credential.value)],
                 passkeyRequests := db.passkeyRequests - {request}, supply := db.supply + 1);
    Ok(Commit(Invalidate(d, who.account, now), Created(db.supply)))
  }

  function WithoutPasskey(passkeys: map<Id, PasskeyRow>, account: Id, passkey: Id): map<Id, PasskeyRow> {
    map k | k in passkeys && !(k == passkey && passkeys[k].account == account) :: passkeys[k]
  }

  function DeletePasskeyTx(db: DB, now: Time, who: Principal, grant: Id, passkey: Id): Outcome {
    var spent :- ConsumeGrant(db, now, grant, Purpose.PasskeyRemoval, who);
    RemovePasskey(spent.db, now, spent.account, passkey)
  }

  function RemovePasskey(db: DB, now: Time, account: Id, passkey: Id): Outcome {
    if !HasOtherCredential(db, account, None, Some(passkey)) then Err(Conflict)
    else Ok(Commit(Invalidate(db.(passkeys := WithoutPasskey(db.passkeys, account, passkey)), account, now), Done))
  }
}
