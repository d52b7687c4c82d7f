/** internal/authentication/oauth.go: the three transactions of a provider attempt. */
module OAuth {
  import opened Base
  import opened Secrets
  import opened Store
  import opened Answers
  import opened Processes
  import opened Challenges

  /** What the client presents: an ID token, or an authorization code with its state. */
  datatype ProviderProof = IdToken(withCode: bool) | AuthorizationCode(state: Id)

  /** What the provider said about the user. */
  datatype ProviderIdentity = ProviderIdentity(subject: string, nonce: Option<Id>, authenticatedAt: Option<Time>)

  /** First transaction: the attempt is allowed and its one-time state is spent. */
  function BeginProviderTx(cfg: Config, db: DB, now: Time, id: Id, cid: Id, flow: Id, who: Principal,
                           kind: Kind, proof: ProviderProof): Outcome {
    if !(IsProvider(kind) && cfg.Offers(ProviderOf(kind))) then Err(Unavailable) else
    var p :- Load(db, now, id, flow, who);
    :- Need(cid in db.steps && db.steps[cid].process == id, Unauthorized);
    var step := db.steps[cid];
    :- Need(p.status == Pending && step.status == Pending && step.kind == kind && step.expires > now, Conflict);
    var next :- Next(cfg, db, id, p);
    :- Need(step.kind in next, Forbidden);
    match proof
    case IdToken(withCode) =>
      :- Need(kind == Google && !withCode, Invalid);
      :- Need(step.detail.NonceSent?, Credentials);
      Ok(Commit(db, Exchanging(step.detail.hash, "", None)))
    case AuthorizationCode(state) =>
      var key := Digest(StateTag, 0, state);
      :- Need(key in db.oauth && SpendableState(db.oauth[key], kind, cid, flow, now), Credentials);
      var request := db.oauth[key];
      Ok(Commit(db.(oauth := db.oauth - {key}), Exchanging(request.nonce, request.redirect, Some(request.verifier))))
  }

  predicate SpendableState(o: OAuthRequest, kind: Kind, cid: Id, flow: Id, now: Time)
    requires IsProvider(kind)
  {
    o.provider == ProviderOf(kind) && o.step == Some(cid) && o.binding == Digest(BindingTag, 0, flow) && o.expires > now
  }

  /** The checks made on the provider's answer, outside any transaction. */
  function JudgeIdentity(cfg: Config, now: Time, purpose: Purpose, kind: Kind, nonce: Digest, who: ProviderIdentity): Check {
    if who.subject == "" || (kind == Google && (who.nonce.None? || nonce != Digest(NonceTag, 0, who.nonce.value))) then Fail(Credentials)
    else if Sensitive(purpose)
      && (who.authenticatedAt.None? || who.authenticatedAt.value < now - cfg.reuseTTL || who.authenticatedAt.value > now + MINUTE)
    then Fail(Forbidden)
    else Pass
  }

  /** Second transaction: everything is checked again and the factor is accepted. */
  function FinishProviderTx(cfg: Config, db: DB, now: Time, id: Id, cid: Id, flow: Id, who: Principal,
                            kind: Kind, subject: string): Outcome {
    var p :- Load(db, now, id, flow, who);
    :- Need(cid in db.steps && db.steps[cid].process == id, Unauthorized);
    var step := db.steps[cid];
    :- Need(p.status == Pending && step.status == Pending && step.expires > now, Conflict);
    var next :- Next(cfg, db, id, p);
    :- Need(step.kind in next, Forbidden);
    // The first transaction saw this kind, and the kind of a step never changes.
    :- Need(IsProvider(kind) && step.kind == kind, Conflict);
    var owner := IdentityOwner(db.identities, db.supply, ProviderOf(kind), subject);
    :- Need(IdentityFits(db, p, owner), Credentials);
    AcceptIdentity(cfg, db, now, id, cid, owner.value)
  }

  /** The identity belongs to an unblocked account, the process's own where it has to be. */
  predicate IdentityFits(db: DB, p: Process, owner: Option<Id>) {
    && owner.Some? && owner.value in db.accounts && !db.accounts[owner.value].blocked
    && (Sensitive(p.purpose) ==> p.account == owner)
  }

  function AcceptIdentity(cfg: Config, db: DB, now: Time, id: Id, cid: Id, owner: Id): Outcome
    requires id in db.procs && cid in db.steps
  {
    AfterFactor(cfg, AcceptStep(Bind(db, id, owner), id, cid, now), now, id, cid)
  }

  /** Third transaction, only after ErrCredentials: the failure is counted. */
  function RejectProviderTx(cfg: Config, db: DB, now: Time, id: Id, cid: Id, flow: Id, who: Principal): Outcome {
    var p :- Load(db, now, id, flow, who);
    :- Need(cid in db.steps && db.steps[cid].process == id, Unauthorized);
    :- Need(p.status == Pending && db.steps[cid].status == Pending, Conflict);
    Ok(Commit(CountFailure(cfg, db, id, cid), FailureAnswer(cfg, p)))
  }
}
