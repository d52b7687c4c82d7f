/** The engine: one method an operation, each a transaction that commits or is forgotten, proved equal to its specification. */
module Service {
  import opened Base
  import opened Secrets
  import opened Store
  import opened Answers
  import opened Processes
  import opened Challenges
  import opened OAuth
  import opened Accounts
  import opened Totps
  import opened Sessions
  import opened Mails
  import opened CredentialOps
  import opened Cleanups
  import opened Protocol
  import opened Transactions
  import opened Limiter

  class Engine {
    const cfg: Config
    const activationAttempts: ActivationLimiter
    var db: DB

    constructor (settings: Config, limiter: ActivationLimiter)
      ensures cfg == settings && activationAttempts == limiter && db == EMPTY
    {
      cfg, activationAttempts, db := settings, limiter, EMPTY;
    }

    // ---------- process.go ----------

    method Start(now: Time, name: string, who: Principal) returns (answer: Answer)
      modifies this
      ensures Commit(db, answer) == Settle(old(db), StartTx(cfg, old(db), now, name, who))
    {
      hide PurposePrincipal, Next, Reusable, ParsePurpose;
      var purpose := ParsePurpose(name);
      if purpose.Err? {
        return Rejected(purpose.error);
      }
      var sensitive := Sensitive(purpose.value);
      if sensitive && !(who.Bearer? && PurposePrincipal(db, now, who, purpose.value)) {
        return Rejected(Forbidden);
      }
      var id, flow := db.supply, db.supply + 1;
      var tx := new Transaction(db);
      tx.db := Opened(cfg, tx.db, now, purpose.value, who);
      var next := Next(cfg, tx.db, id, tx.db.procs[id]);
      if next.Err? {
        return Rejected(next.error);
      }
      var view := View(id, purpose.value, Pending, next.value, None);
      if sensitive && Reusable(tx.db, who.account, who.session, now - cfg.reuseTTL) {
        var token := tx.Complete(cfg, id, who.account, now);
        view := View(id, purpose.value, Completed, [], Some(token));
      }
      db := tx.db;
      return Started(view, flow);
    }

    // ---------- challenge.go ----------

    method CreateChallenge(now: Time, id: Id, flow: Id, kind: Kind, who: Principal, options: OAuthOptions, code: Id, libraryOk: bool)
      returns (answer: Answer)
      modifies this
      ensures Commit(db, answer) == Settle(old(db), CreateChallengeTx(cfg, old(db), now, id, flow, kind, who, options, code, libraryOk))
    {
      hide Load, Next, CreateOAuth;
      var p := Load(db, now, id, flow, who);
      if p.Err? {
        return Rejected(p.error);
      }
      if p.value.status != Pending {
        return Rejected(Conflict);
      }
      var next := Next(cfg, db, id, p.value);
      if next.Err? {
        return Rejected(next.error);
      }
      if kind !in next.value {
        return Rejected(Forbidden);
      }
      var cid := db.supply;
      var step := Step(id, kind, Pending, 0, Earlier(now + cfg.challengeTTL, p.value.expires), None, NoDetail);
      var tx := new Transaction(AddStep(db, id, step));
      var done := Challenged(cid, kind, step.expires, None, None);
      if IsProvider(kind) {
        var created := CreateOAuthChallenge(tx, cid, step, flow, options, libraryOk);
        if created.Err? {
          return Rejected(created.error);
        }
        done := created.value;
      } else if kind == Kind.Passkey {
        if !cfg.passkeys || !libraryOk {
          return Rejected(Unavailable);
        }
      } else if kind == Email {
        if !cfg.mail {
          return Rejected(Unavailable);
        }
        if id !in tx.db.signups {
          return Rejected(Internal);
        }
        tx.db := SendCode(tx.db, id, cid, step, code);
      }
      db := tx.db;
      return done;
    }

    /** createOAuthChallenge: a nonce for an ID token, or a one-time state with its verifier for a code. */
    method CreateOAuthChallenge(tx: Transaction, cid: Id, step: Step, flow: Id, o: OAuthOptions, libraryOk: bool) returns (r: Result<Answer>)
      requires IsProvider(step.kind)
      modifies tx
      ensures Finished(CreateOAuth(cfg, old(tx.db), cid, step, flow, o, libraryOk), r, tx.db)
    {
      hide ProviderOf;
      if o.credential == Unrecognised {
        return Err(Invalid);
      }
      if !cfg.Offers(ProviderOf(step.kind)) {
        return Err(Unavailable);
      }
      var nonce := tx.db.supply;
      if o.credential == Native {
        if step.kind != Google || o.redirect != "" {
          return Err(Invalid);
        }
        tx.db := tx.db.(steps := tx.db.steps[cid := step.(detail := NonceSent(Digest(NonceTag, 0, nonce)))], supply := nonce + 1);
        return Ok(Challenged(cid, step.kind, step.expires, Some(nonce), None));
      }
      if o.redirect !in cfg.redirects {
        return Err(Invalid);
      }
      if !libraryOk {
        return Err(Internal);
      }
      var state, verifier := nonce + 1, nonce + 2;
      var request := OAuthRequest(ProviderOf(step.kind), Some(cid), None, Digest(BindingTag, 0, flow), o.redirect,
                                  Digest(NonceTag, 0, nonce), verifier, step.expires);
      tx.db := tx.db.(oauth := tx.db.oauth[Digest(StateTag, 0, state) := request], supply := nonce + 3);
      return Ok(Challenged(cid, step.kind, step.expires, None, Some(state)));
    }

    method Attempt(now: Time, id: Id, cid: Id, flow: Id, who: Principal, proof: Proof) returns (answer: Answer)
      modifies this
      ensures Commit(db, answer) == Settle(old(db), AttemptTx(cfg, old(db), now, id, cid, flow, who, proof))
    {
      hide PurposePrincipal, Next, Verify, Proceed, CountFailure;
      var p := Load(db, now, id, flow, who);
      if p.Err? {
        return Rejected(p.error);
      }
      if p.value.status != Pending {
        return Rejected(Conflict);
      }
      if cid !in db.steps || db.steps[cid].process != id {
        return Rejected(Unauthorized);
      }
      var step := db.steps[cid];
      if step.status != Pending || step.expires <= now {
        return Rejected(Conflict);
      }
      if step.kind != proof.Method() {
        return Rejected(Invalid);
      }
      var next := Next(cfg, db, id, p.value);
      if next.Err? {
        return Rejected(next.error);
      }
      if step.kind !in next.value {
        return Rejected(Forbidden);
      }
      var tx := new Transaction(db);
      var verdict := tx.Verify(cfg, now, id, cid, proof);
      if verdict == Err(Credentials) {
        tx.RecordFailure(cfg, id, cid);
        db := tx.db;
        return FailureAnswer(cfg, p.value);
      }
      if verdict.Err? {
        return Rejected(verdict.error);
      }
      ProofKeepsRows(cfg, db, now, id, cid, proof);
      var done := Advance(tx, now, id, cid, p.value.purpose, step.kind);
      if done.Err? {
        return Rejected(done.error);
      }
      db := tx.db;
      return done.value;
    }

    /** What follows an accepted proof, in the same transaction. */
    method Advance(tx: Transaction, now: Time, id: Id, cid: Id, purpose: Purpose, kind: Kind) returns (r: Result<Answer>)
      requires id in tx.db.procs && cid in tx.db.steps
      modifies tx
      ensures Finished(Proceed(cfg, old(tx.db), now, id, cid, purpose, kind), r, tx.db)
    {
      hide Next, Challenges.AcceptStep, CompleteSignUp, Challenges.FailRegistration, Finish, EmailTaken;
      AcceptKeeps(tx.db, id, cid, now);
      tx.AcceptStep(id, cid, now);
      if purpose == SignUp {
        r := AdvanceSignUp(tx, now, id, cid, kind);
      } else {
        var p := tx.db.procs[id];
        var next := Next(cfg, tx.db, id, p);
        if next.Err? {
          return Err(next.error);
        }
        if next.value != [] {
          return Ok(Attempted(cid, View(id, p.purpose, p.status, next.value, None)));
        }
        if p.account.None? {
          return Err(Internal);
        }
        var token := tx.Complete(cfg, id, p.account.value, now);
        return Ok(Attempted(cid, View(id, p.purpose, Completed, [], Some(token))));
      }
    }

    method AdvanceSignUp(tx: Transaction, now: Time, id: Id, cid: Id, kind: Kind) returns (r: Result<Answer>)
      requires id in tx.db.procs
      modifies tx
      ensures Finished(AfterSignUpStep(cfg, old(tx.db), now, id, cid, kind), r, tx.db)
    {
      hide Next, Challenges.FailRegistration, EmailTaken;
      if kind == Email && AddressTaken(tx.db, id) {
        tx.FailRegistration(id);
        return Ok(Rejected(AccountExists));
      }
      var next := Next(cfg, tx.db, id, tx.db.procs[id]);
      if next.Err? {
        return Err(next.error);
      }
      if next.value != [] {
        return Ok(Attempted(cid, View(id, SignUp, Pending, next.value, None)));
      }
      var registered := tx.Register(id);
      if registered == Err(AccountExists) {
        tx.FailRegistration(id);
        return Ok(Rejected(AccountExists));
      }
      if registered.Err? {
        return Err(registered.error);
      }
      var token := tx.Complete(cfg, id, registered.value, now);
      return Ok(Attempted(cid, View(id, SignUp, Completed, [], Some(token))));
    }

    // ---------- oauth.go ----------

    /** First transaction of a provider attempt. */
    method BeginProvider(now: Time, id: Id, cid: Id, flow: Id, who: Principal, kind: Kind, proof: ProviderProof) returns (answer: Answer)
      modifies this
      ensures Commit(db, answer) == Settle(old(db), BeginProviderTx(cfg, old(db), now, id, cid, flow, who, kind, proof))
    {
      hide PurposePrincipal, Next;
      if !(IsProvider(kind) && cfg.Offers(ProviderOf(kind))) {
        return Rejected(Unavailable);
      }
      var p := Load(db, now, id, flow, who);
      if p.Err? {
        return Rejected(p.error);
      }
      if cid !in db.steps || db.steps[cid].process != id {
        return Rejected(Unauthorized);
      }
      var step := db.steps[cid];
      if p.value.status != Pending || step.status != Pending || step.kind != kind || step.expires <= now {
        return Rejected(Conflict);
      }
      var next := Next(cfg, db, id, p.value);
      if next.Err? {
        return Rejected(next.error);
      }
      if kind !in next.value {
        return Rejected(Forbidden);
      }
      match proof
      case IdToken(withCode) =>
        if kind != Google || withCode {
          return Rejected(Invalid);
        }
        return if step.detail.NonceSent? then Exchanging(step.detail.hash, "", None) else Rejected(Credentials);
      case AuthorizationCode(state) =>
        var key := Digest(StateTag, 0, state);
        if key !in db.oauth || !SpendableState(db.oauth[key], kind, cid, flow, now) {
          return Rejected(Credentials);
        }
        var request := db.oauth[key];
        db := db.(oauth := db.oauth - {key});
        return Exchanging(request.nonce, request.redirect, Some(request.verifier));
    }

    /** Second transaction. */
    method FinishProvider(now: Time, id: Id, cid: Id, flow: Id, who: Principal, kind: Kind, subject: string) returns (answer: Answer)
      modifies this
      ensures Commit(db, answer) == Settle(old(db), FinishProviderTx(cfg, old(db), now, id, cid, flow, who, kind, subject))
    {
      hide PurposePrincipal, Next, IdentityOwner, Finish;
      var p := Load(db, now, id, flow, who);
      if p.Err? {
        return Rejected(p.error);
      }
      if cid !in db.steps || db.steps[cid].process != id {
        return Rejected(Unauthorized);
      }
      var step := db.steps[cid];
      if p.value.status != Pending || step.status != Pending || step.expires <= now {
        return Rejected(Conflict);
      }
      var next := Next(cfg, db, id, p.value);
      if next.Err? {
        return Rejected(next.error);
      }
      if step.kind !in next.value {
        return Rejected(Forbidden);
      }
      if !IsProvider(kind) || step.kind != kind {
        return Rejected(Conflict);
      }
      var owner := IdentityOwner(db.identities, db.supply, ProviderOf(kind), subject);
      if !IdentityFits(db, p.value, owner) {
        return Rejected(Credentials);
      }
      var tx := new Transaction(Bind(db, id, owner.value));
      AcceptKeeps(tx.db, id, cid, now);
      tx.AcceptStep(id, cid, now);
      hide Challenges.AcceptStep;
      var q := tx.db.procs[id];
      var left := Next(cfg, tx.db, id, q);
      if left.Err? {
        return Rejected(left.error);
      }
      var view := View(id, q.purpose, q.status, left.value, None);
      if left.value == [] {
        if q.account.None? {
          return Rejected(Internal);
        }
        var token := tx.Complete(cfg, id, q.account.value, now);
        view := View(id, q.purpose, Completed, [], Some(token));
      }
      db := tx.db;
      return Attempted(cid, view);
    }

    /** Third transaction, after ErrCredentials from either of the others. */
    method RejectProvider(now: Time, id: Id, cid: Id, flow: Id, who: Principal) returns (answer: Answer)
      modifies this
      ensures Commit(db, answer) == Settle(old(db), RejectProviderTx(cfg, old(db), now, id, cid, flow, who))
    {
      hide PurposePrincipal, CountFailure;
      var p := Load(db, now, id, flow, who);
      if p.Err? {
        return Rejected(p.error);
      }
      if cid !in db.steps || db.steps[cid].process != id {
        return Rejected(Unauthorized);
      }
      if p.value.status != Pending || db.steps[cid].status != Pending {
        return Rejected(Conflict);
      }
      var tx := new Transaction(db);
      tx.RecordFailure(cfg, id, cid);
      db := tx.db;
      return FailureAnswer(cfg, p.value);
    }

    /** What other clients and workers do meanwhile. */
    method Others(calls: seq<Call>)
      modifies this
      ensures db == RunFrom(cfg, old(db), calls)
    {
      hide Apply;
      for i := 0 to |calls|
        invariant db == RunFrom(cfg, old(db), calls[..i])
      {
        assert calls[..i + 1][..i] == calls[..i];
        db := Apply(cfg, db, calls[i]).db;
      }
      assert calls[..|calls|] == calls;
    }

    /** attemptProvider: the state is spent, the provider answers, and everything is checked again. */
    method ExchangeProvider(at: Times, id: Id, cid: Id, flow: Id, who: Principal, kind: Kind, proof: ProviderProof,
                            exchanged: Result<ProviderIdentity>, between: seq<Call>) returns (answer: Answer)
      modifies this
      ensures Commit(db, answer) == ExchangedBy(cfg, old(db), at, id, cid, flow, who, kind, proof, exchanged, between)
    {
      hide BeginProviderTx, FinishProviderTx, RunFrom, JudgeIdentity;
      var purpose := if id in db.procs then db.procs[id].purpose else SignIn;
      answer := BeginProvider(at.begin, id, cid, flow, who, kind, proof);
      if answer.Exchanging? {
        Others(between);
        if exchanged.Err? {
          return Rejected(exchanged.error);
        }
        var judged := JudgeIdentity(cfg, at.judge, purpose, kind, answer.nonceHash, exchanged.value);
        if judged.Fail? {
          return Rejected(judged.error);
        }
        answer := FinishProvider(at.finish, id, cid, flow, who, kind, exchanged.value.subject);
      }
    }

    /** AttemptProvider: up to three transactions at their own times, with any calls of others between them. */
    method AttemptProvider(at: Times, id: Id, cid: Id, flow: Id, who: Principal, kind: Kind, proof: ProviderProof,
                           exchanged: Result<ProviderIdentity>, between: seq<Call>, before: seq<Call>) returns (answer: Answer)
      modifies this
      ensures Commit(db, answer) == AttemptedBy(cfg, old(db), at, id, cid, flow, who, kind, proof, exchanged, between, before)
    {
      hide ExchangedBy, RejectProviderTx, RunFrom;
      answer := ExchangeProvider(at, id, cid, flow, who, kind, proof, exchanged, between);
      if answer == Rejected(Credentials) {
        Others(before);
        answer := RejectProvider(at.reject, id, cid, flow, who);
      }
    }

    // ---------- cleanup.go ----------

    method Cleanup(now: Time) returns (answer: Answer)
      modifies this
      ensures Commit(db, answer) == Settle(old(db), CleanupTx(cfg, old(db), now))
    {
      hide ExecuteAll;
      var tx := new Transaction(db);
      tx.Purge(cfg, now);
      db := tx.db;
      return Done;
    }

    // ---------- account.go ----------

    /** The common end of SetPassword and ConfirmPasswordReset. */
    method StoreNewPassword(tx: Transaction, now: Time, account: Id, password: Store.Password, keep: set<Id>)
      requires account in tx.db.accounts
      modifies tx
      ensures ReplacePassword(old(tx.db), now, account, password, keep) == Ok(Commit(tx.db, Done))
    {
      hide DropSessions;
      tx.db := StorePassword(tx.db, account, password);
      tx.Invalidate(account, now);
      tx.NotifyAccount(account, PasswordChanged);
      tx.EndSessions(SessionsOf(tx.db, account) - keep);
    }

    method SetPassword(now: Time, who: Principal, grant: Id, password: Store.Password) returns (answer: Answer)
      modifies this
      ensures Commit(db, answer) == Settle(old(db), SetPasswordTx(cfg, old(db), now, who, grant, password))
    {
      hide ConsumeGrant, HoldsGrant, Spendable, ReplacePassword;
      if !AcceptablePassword(password) {
        return Rejected(Invalid);
      }
      if !FullPrincipal(db, now, who) {
        return Rejected(Forbidden);
      }
      var existing := db.accounts[who.account].password;
      var tx := new Transaction(db);
      if existing.Some? {
        var granted := tx.ConsumeGrant(now, grant, PasswordChange, who);
        if granted.Err? {
          return Rejected(granted.error);
        }
        if cfg.bcryptMatches(existing.value, password) {
          db := tx.db;
          return Done;
        }
      }
      StoreNewPassword(tx, now, who.account, password, {who.session});
      db := tx.db;
      return Done;
    }

    method SetUsername(now: Time, who: Principal, username: string) returns (answer: Answer)
      modifies this
      ensures Commit(db, answer) == Settle(old(db), SetUsernameTx(cfg, old(db), now, who, username))
    {
      hide ValidUsername, UsernameTaken;
      var name := cfg.normalize(username);
      var valid := CheckUsername(cfg.forbidden, name);
      if !valid {
        return Rejected(Invalid);
      }
      if !FullPrincipal(db, now, who) {
        return Rejected(Forbidden);
      }
      var row := db.accounts[who.account];
      if row.username == Some(name) {
        return Done;
      }
      if UsernameTaken(db.accounts, who.account, name) {
        return Rejected(Conflict);
      }
      var tx := new Transaction(SetAccount(db, who.account, row.(username := Some(name))));
      tx.NotifyAccount(who.account, UsernameChanged);
      db := tx.db;
      return Done;
    }

    method RequestDeletion(now: Time, who: Principal, grant: Id, shared: bool, delay: int) returns (answer: Answer)
      modifies this
      ensures Commit(db, answer) == Settle(old(db), RequestDeletionTx(old(db), now, who, grant, shared, delay))
    {
      hide ConsumeGrant, HoldsGrant, Spendable, PurposePrincipal;
      var tx := new Transaction(db);
      var granted := tx.ConsumeGrant(now, grant, AccountDeletion, who);
      if granted.Err? {
        return Rejected(granted.error);
      }
      var account := granted.value;
      var row := Deletion(shared, now + delay);
      if account in tx.db.deletions {
        if tx.db.deletions[account].at <= now {
          return Rejected(Conflict);
        }
        row := tx.db.deletions[account].(shared := shared);
      }
      tx.db := tx.db.(deletions := tx.db.deletions[account := row]);
      tx.NotifyAccount(account, DeletionRequested);
      db := tx.db;
      return DeletionSet(row);
    }

    method PatchDeletion(now: Time, who: Principal, shared: bool) returns (answer: Answer)
      modifies this
      ensures Commit(db, answer) == Settle(old(db), PatchDeletionTx(old(db), now, who, shared))
    {
      if !RecoveryPrincipal(db, now, who) {
        return Rejected(Forbidden);
      }
      if who.account !in db.deletions {
        return Rejected(NotFound);
      }
      if db.deletions[who.account].at <= now {
        return Rejected(Conflict);
      }
      var row := db.deletions[who.account].(shared := shared);
      db := db.(deletions := db.deletions[who.account := row]);
      return DeletionSet(row);
    }

    method CancelDeletion(now: Time, who: Principal) returns (answer: Answer)
      modifies this
      ensures Commit(db, answer) == Settle(old(db), CancelDeletionTx(old(db), now, who))
    {
      if !RecoveryPrincipal(db, now, who) {
        return Rejected(Forbidden);
      }
      if who.account in db.deletions {
        if db.deletions[who.account].at <= now {
          return Rejected(Conflict);
        }
        db := db.(deletions := db.deletions - {who.account});
      }
      return Done;
    }

    method DeleteDueAccount(now: Time) returns (answer: Answer)
      modifies this
      ensures Commit(db, answer) == Settle(old(db), DeleteDueTx(old(db), now))
    {
      hide NextDue, DropAccount;
      var due := NextDue(db.accounts, db.deletions, db.supply, now);
      if due.None? {
        return Flag(false);
      }
      var tx := new Transaction(Enqueue(db, ProfileDeleted(due.value, db.deletions[due.value].shared)));
      tx.NotifyAccount(due.value, AccountDeleted);
      tx.db := DropAccount(tx.db, due.value);
      db := tx.db;
      return Flag(true);
    }

    // ---------- totp.go ----------

    method StartTotp(now: Time, who: Principal, grant: Id) returns (answer: Answer)
      modifies this
      ensures Commit(db, answer) == Settle(old(db), StartTotpTx(old(db), now, who, grant))
    {
      hide ConsumeGrant, HoldsGrant, Spendable, PurposePrincipal;
      var tx := new Transaction(db);
      var granted := tx.ConsumeGrant(now, grant, Purpose.TotpEnrollment, who);
      if granted.Err? {
        return Rejected(granted.error);
      }
      if granted.value in tx.db.totp {
        return Rejected(Conflict);
      }
      var secret := tx.db.supply;
      var row := Activation(who.session, secret, now + ACTIVATION_TTL);
      tx.db := tx.db.(activations := tx.db.activations[granted.value := row], supply := secret + 1);
      db := tx.db;
      return Secret(secret, row.expires);
    }

    /** ConfirmTotp: the limiter is asked first, and counts even what the transaction then refuses. */
    method ConfirmTotp(now: Time, who: Principal, digits: string) returns (answer: Answer)
      modifies this, activationAttempts
      ensures var caller := if who.Bearer? then who.account else 0;
        var verdict := Limiter.Judge(old(activationAttempts.windows), caller, now);
        && activationAttempts.windows == verdict.windows
        && if verdict.allowed then Commit(db, answer) == Settle(old(db), ConfirmTotpTx(cfg, old(db), now, who, digits))
           else db == old(db) && answer == Rejected(Attempts)
    {
      hide TotpStep, DropSessions, Totps.ReplaceBackupCodes, Limiter.Judge;
      var allowed := activationAttempts.Allow(if who.Bearer? then who.account else 0, now);
      if !allowed {
        return Rejected(Attempts);
      }
      if !FullPrincipal(db, now, who) {
        return Rejected(Forbidden);
      }
      var a := who.account;
      if a !in db.activations || db.activations[a].session != who.session || db.activations[a].expires <= now {
        return Rejected(Invalid);
      }
      var key := db.activations[a].key;
      var used := FindTotpStep(cfg.mac, key, digits, now, -1);
      if used.None? {
        return Rejected(Credentials);
      }
      if a in db.totp {
        return Rejected(Conflict);
      }
      var tx := new Transaction(db.(totp := db.totp[a := TotpFactor(key, used.value)], activations := db.activations - {a}));
      tx.Invalidate(a, now);
      tx.EndSessions(SessionsOf(tx.db, a) - {who.session});
      var codes := tx.ReplaceBackupCodes(a);
      db := tx.db;
      return Codes(codes);
    }

    method DeleteTotp(now: Time, who: Principal, grant: Id) returns (answer: Answer)
      modifies this
      ensures Commit(db, answer) == Settle(old(db), DeleteTotpTx(old(db), now, who, grant))
    {
      hide ConsumeGrant, HoldsGrant, Spendable, PurposePrincipal;
      var tx := new Transaction(db);
      var granted := tx.ConsumeGrant(now, grant, Purpose.TotpRemoval, who);
      if granted.Err? {
        return Rejected(granted.error);
      }
      tx.db := tx.db.(totp := tx.db.totp - {granted.value});
      tx.Invalidate(granted.value, now);
      db := tx.db;
      return Done;
    }

    method RotateBackupCodes(now: Time, who: Principal, grant: Id) returns (answer: Answer)
      modifies this
      ensures Commit(db, answer) == Settle(old(db), RotateBackupCodesTx(old(db), now, who, grant))
    {
      hide ConsumeGrant, HoldsGrant, Spendable, PurposePrincipal, Totps.ReplaceBackupCodes;
      var tx := new Transaction(db);
      var granted := tx.ConsumeGrant(now, grant, Purpose.BackupCodesRotation, who);
      if granted.Err? {
        return Rejected(granted.error);
      }
      var codes := tx.ReplaceBackupCodes(granted.value);
      tx.Invalidate(granted.value, now);
      db := tx.db;
      return Codes(codes);
    }

    // ---------- sessions.go ----------

    method CreateSession(now: Time, grant: Id, ttl: int) returns (answer: Answer)
      modifies this
      ensures Commit(db, answer) == Settle(old(db), CreateSessionTx(old(db), now, grant, ttl))
    {
      hide ConsumeGrant, HoldsGrant, Spendable, PurposePrincipal, ProcByGrant, Issue;
      var found := ProcByGrant(db.procs, db.supply, Digest(GrantTag, 0, grant));
      if found.None? {
        return Rejected(Forbidden);
      }
      var purpose := db.procs[found.value].purpose;
      if Sensitive(purpose) {
        return Rejected(Forbidden);
      }
      var tx := new Transaction(db);
      var granted := tx.ConsumeGrant(now, grant, purpose, Anonymous);
      if granted.Err? {
        return Rejected(granted.error);
      }
      var refresh, id := tx.db.supply, tx.db.supply + 1;
      var row := Session(granted.value, Digest(RefreshTag, 0, refresh), now + ttl);
      tx.db := tx.db.(sessions := tx.db.sessions[id := row], supply := refresh + 2);
      var issued := Issue(tx.db, now, granted.value, id, refresh, row.expires);
      if issued.Err? {
        return Rejected(issued.error);
      }
      tx.NotifyAccount(granted.value, NewLogin);
      db := tx.db;
      return issued.value;
    }

    method Refresh(now: Time, id: Id, refresh: Id, ttl: int) returns (answer: Answer)
      modifies this
      ensures Commit(db, answer) == Settle(old(db), RefreshTx(old(db), now, id, refresh, ttl))
    {
      hide Issue;
      if !AcceptsRefresh(db, now, id, refresh) {
        return Rejected(Credentials);
      }
      var next := db.supply;
      var row := db.sessions[id].(refresh := Digest(RefreshTag, 0, next), expires := now + ttl);
      var tx := new Transaction(db.(sessions := db.sessions[id := row], supply := next + 1));
      var issued := Issue(tx.db, now, row.account, id, next, row.expires);
      if issued.Err? {
        return Rejected(issued.error);
      }
      db := tx.db;
      return issued.value;
    }

    method RevokeSessions(now: Time, who: Principal, only: Option<Id>) returns (answer: Answer)
      modifies this
      ensures Commit(db, answer) == Settle(old(db), RevokeSessionsTx(old(db), now, who, only))
    {
      hide DropSessions;
      if !LiveSession(db, now, who) {
        return Rejected(NoSession);
      }
      var gone := SessionsOf(db, who.account);
      if only.Some? {
        gone := gone * {only.value};
      }
      db := DropSessions(db, gone);
      return Done;
    }

    method LogoutRefresh(id: Id, refresh: Id) returns (answer: Answer)
      modifies this
      ensures Commit(db, answer) == Settle(old(db), LogoutRefreshTx(old(db), id, refresh))
    {
      hide DropSessions;
      if id in db.sessions && db.sessions[id].refresh == Digest(RefreshTag, 0, refresh) {
        db := DropSessions(db, {id});
      }
      return Done;
    }

    // ---------- mail.go ----------

    method StartPasswordReset(now: Time, raw: string, baseOk: bool) returns (answer: Answer)
      modifies this
      ensures Commit(db, answer) == Settle(old(db), StartPasswordResetTx(cfg, old(db), now, raw, baseOk))
    {
      hide AccountByEmail;
      if !baseOk {
        return Rejected(Unavailable);
      }
      var email := cfg.normalize(raw);
      var found := AccountByEmail(db.accounts, db.supply, email);
      if found.None? || db.accounts[found.value].blocked {
        return Done;
      }
      var token := db.supply;
      var tx := new Transaction(db);
      tx.db := tx.db.(resets := tx.db.resets[found.value := ResetRequest(Digest(ResetTag, 0, token), now + LINK_TTL)], supply := token + 1);
      tx.db := tx.db.(outbox := tx.db.outbox + [Mail(email, PasswordReset, Some(token))]);
      db := tx.db;
      return Done;
    }

    method ConfirmPasswordReset(now: Time, token: Id, password: Store.Password) returns (answer: Answer)
      modifies this
      ensures Commit(db, answer) == Settle(old(db), ConfirmPasswordResetTx(old(db), now, token, password))
    {
      hide ResetByToken, ReplacePassword;
      if !AcceptablePassword(password) {
        return Rejected(Invalid);
      }
      var found := ResetByToken(db.resets, db.supply, Digest(ResetTag, 0, token));
      if found.None? || db.resets[found.value].expires <= now {
        return Rejected(Invalid);
      }
      if found.value !in db.accounts {
        return Rejected(Internal);
      }
      var tx := new Transaction(db.(resets := db.resets - {found.value}));
      StoreNewPassword(tx, now, found.value, password, {});
      db := tx.db;
      return Done;
    }

    method ChangeEmail(now: Time, who: Principal, grant: Id, raw: string, baseOk: bool) returns (answer: Answer)
      modifies this
      ensures Commit(db, answer) == Settle(old(db), ChangeEmailTx(cfg, old(db), now, who, grant, raw, baseOk))
    {
      hide ConsumeGrant, HoldsGrant, Spendable, PurposePrincipal;
      var email := cfg.normalize(raw);
      if !cfg.parsesAsAddress(email) {
        return Rejected(Invalid);
      }
      var tx := new Transaction(db);
      var granted := tx.ConsumeGrant(now, grant, EmailChanging, who);
      if granted.Err? {
        return Rejected(granted.error);
      }
      var account := granted.value;
      var previous := tx.db.accounts[account].email;
      if previous == email {
        return Rejected(Conflict);
      }
      if !baseOk {
        return Rejected(Unavailable);
      }
      if account in tx.db.changes {
        return Rejected(Conflict);
      }
      var token := tx.db.supply;
      var row := EmailChangeRequest(previous, email, AwaitingPrevious, Digest(EmailChangeTag, 0, token), now + LINK_TTL);
      tx.db := tx.db.(changes := tx.db.changes[account := row], supply := token + 1);
      tx.db := tx.db.(outbox := tx.db.outbox + [Mail(previous, EmailChangePrevious, Some(token))]);
      db := tx.db;
      return Done;
    }

    method ConfirmEmail(now: Time, token: Id, baseOk: bool) returns (answer: Answer)
      modifies this
      ensures Commit(db, answer) == Settle(old(db), ConfirmEmailTx(old(db), now, token, baseOk))
    {
      hide ChangeByToken, EmailTaken;
      var found := ChangeByToken(db.changes, db.supply, Digest(EmailChangeTag, 0, token));
      if found.None? || db.changes[found.value].expires <= now {
        return Rejected(Invalid);
      }
      var account := found.value;
      var row := db.changes[account];
      var tx := new Transaction(db);
      if row.stage == AwaitingPrevious {
        if !baseOk {
          return Rejected(Unavailable);
        }
        tx.db := AskNewAddress(tx.db, account, now);
        db := tx.db;
        return Flag(false);
      }
      if account !in tx.db.accounts || tx.db.accounts[account].email != row.previous || EmailTaken(tx.db, row.email) {
        return Rejected(Conflict);
      }
      tx.db := SetAccount(tx.db, account, tx.db.accounts[account].(email := row.email));
      tx.db := tx.db.(changes := tx.db.changes - {account});
      tx.Invalidate(account, now);
      db := tx.db;
      return Flag(true);
    }

    // ---------- identities.go and passkeys.go ----------

    method PrepareIdentityOAuth(now: Time, who: Principal, provider: Provider, redirect: string, libraryOk: bool) returns (answer: Answer)
      modifies this
      ensures Commit(db, answer) == Settle(old(db), PrepareIdentityTx(cfg, old(db), now, who, provider, redirect, libraryOk))
    {
      if !cfg.Offers(provider) {
        return Rejected(Unavailable);
      }
      if redirect !in cfg.redirects {
        return Rejected(Invalid);
      }
      if !FullPrincipal(db, now, who) {
        return Rejected(Forbidden);
      }
      if !libraryOk {
        return Rejected(Internal);
      }
      var state, nonce, verifier := db.supply, db.supply + 1, db.supply + 2;
      var request := OAuthRequest(provider, None, Some(who.session), Digest(BindingTag, 0, who.session), redirect,
                                  Digest(NonceTag, 0, nonce), verifier, now + REQUEST_TTL);
      db := db.(oauth := db.oauth[Digest(StateTag, 0, state) := request], supply := state + 3);
      return Created(state);
    }

    /** The first transaction of LinkIdentity. */
    method BeginLink(now: Time, who: Principal, provider: Provider, state: Id) returns (answer: Answer)
      modifies this
      ensures Commit(db, answer) == Settle(old(db), BeginLinkTx(cfg, old(db), now, who, provider, state))
    {
      if !cfg.Offers(provider) {
        return Rejected(Unavailable);
      }
      if !FullPrincipal(db, now, who) {
        return Rejected(Forbidden);
      }
      var key := Digest(StateTag, 0, state);
      if key !in db.oauth || !SpendableLink(db.oauth[key], provider, who.session, now) {
        return Rejected(Credentials);
      }
      var request := db.oauth[key];
      db := db.(oauth := db.oauth - {key});
      return Exchanging(request.nonce, request.redirect, Some(request.verifier));
    }

    /** The second transaction of LinkIdentity. */
    method FinishLink(now: Time, who: Principal, grant: Id, provider: Provider, subject: string) returns (answer: Answer)
      modifies this
      ensures Commit(db, answer) == Settle(old(db), FinishLinkTx(old(db), now, who, grant, provider, subject))
    {
      hide ConsumeGrant, HoldsGrant, Spendable, PurposePrincipal, IdentityTaken;
      var tx := new Transaction(db);
      var granted := tx.ConsumeGrant(now, grant, Purpose.IdentityLink, who);
      if granted.Err? {
        return Rejected(granted.error);
      }
      var key := IdentityKey(granted.value, provider);
      if key in tx.db.identities {
        if tx.db.identities[key] != subject {
          return Rejected(Conflict);
        }
        db := tx.db;
        return Flag(false);
      }
      if IdentityTaken(tx.db.identities, provider, subject) {
        return Rejected(Conflict);
      }
      tx.db := tx.db.(identities := tx.db.identities[key := subject]);
      tx.Invalidate(granted.value, now);
      db := tx.db;
      return Flag(true);
    }

    /** LinkIdentity: two transactions, with the provider's answer and any calls of others between them. */
    method LinkIdentity(begin: Time, finish: Time, who: Principal, grant: Id, provider: Provider, state: Id,
                        exchanged: Result<ProviderIdentity>, between: seq<Call>) returns (answer: Answer)
      modifies this
      ensures Commit(db, answer) == LinkedBy(cfg, old(db), begin, finish, who, grant, provider, state, exchanged, between)
    {
      hide BeginLinkTx, FinishLinkTx, RunFrom;
      answer := BeginLink(begin, who, provider, state);
      if answer.Exchanging? {
        Others(between);
        if exchanged.Err? {
          return Rejected(exchanged.error);
        }
        var identity := exchanged.value;
        if identity.subject == ""
          || (provider == GoogleProvider && (identity.nonce.None? || answer.nonceHash != Digest(NonceTag, 0, identity.nonce.value))) {
          return Rejected(Credentials);
        }
        answer := FinishLink(finish, who, grant, provider, identity.subject);
      }
    }

    method UnlinkIdentity(now: Time, who: Principal, grant: Id, provider: Provider) returns (answer: Answer)
      modifies this
      ensures Commit(db, answer) == Settle(old(db), UnlinkIdentityTx(old(db), now, who, grant, provider))
    {
      hide ConsumeGrant, HoldsGrant, Spendable, PurposePrincipal, HasOtherCredential;
      var tx := new Transaction(db);
      var granted := tx.ConsumeGrant(now, grant, Purpose.IdentityUnlink, who);
      if granted.Err? {
        return Rejected(granted.error);
      }
      var key := IdentityKey(granted.value, provider);
      if !HasOtherCredential(tx.db, granted.value, Some(key), None) {
        return Rejected(Conflict);
      }
      tx.db := tx.db.(identities := tx.db.identities - {key});
      tx.Invalidate(granted.value, now);
      db := tx.db;
      return Done;
    }

    method StartPasskey(now: Time, who: Principal, grant: Id, libraryOk: bool) returns (answer: Answer)
      modifies this
      ensures Commit(db, answer) == Settle(old(db), StartPasskeyTx(cfg, old(db), now, who, grant, libraryOk))
    {
      hide ConsumeGrant, HoldsGrant, Spendable, PurposePrincipal;
      if !cfg.passkeys {
        return Rejected(Unavailable);
      }
      var tx := new Transaction(db);
      var granted := tx.ConsumeGrant(now, grant, Purpose.PasskeyEnrollment, who);
      if granted.Err? {
        return Rejected(granted.error);
      }
      if !libraryOk {
        return Rejected(Invalid);
      }
      var id := tx.db.supply;
      tx.db := tx.db.(passkeyRequests := tx.db.passkeyRequests[id := PasskeyRequest(who.session, now + REQUEST_TTL)], supply := id + 1);
      db := tx.db;
      return Created(id);
    }

    method RegisterPasskey(now: Time, who: Principal, request: Id, name: string, credential: Option<Id>) returns (answer: Answer)
      modifies this
      ensures Commit(db, answer) == Settle(old(db), RegisterPasskeyTx(cfg, old(db), now, who, request, name, credential))
    {
      if !cfg.passkeys {
        return Rejected(Unavailable);
      }
      if name == "" || |name| > 128 {
        return Rejected(Invalid);
      }
      if !FullPrincipal(db, now, who) {
        return Rejected(Forbidden);
      }
      if request !in db.passkeyRequests || db.passkeyRequests[request].session != who.session || db.passkeyRequests[request].expires <= now {
        return Rejected(Invalid);
      }
      if credential.None? {
        return Rejected(Credentials);
      }
      if exists k | k in db.passkeys :: db.passkeys[k].credential == credential.value {
        return Rejected(Conflict);
      }
      var id := db.supply;
      var tx := new Transaction(db);
      tx.db := tx.db.(passkeys := tx.db.passkeys[id := PasskeyRow(who.account, credential.value)],
                      passkeyRequests := tx.db.passkeyRequests - {request}, supply := id + 1);
      tx.Invalidate(who.account, now);
      db := tx.db;
      return Created(id);
    }

    method DeletePasskey(now: Time, who: Principal, grant: Id, passkey: Id) returns (answer: Answer)
      modifies this
      ensures Commit(db, answer) == Settle(old(db), DeletePasskeyTx(old(db), now, who, grant, passkey))
    {
      hide ConsumeGrant, HoldsGrant, Spendable, PurposePrincipal, HasOtherCredential;
      var tx := new Transaction(db);
      var granted := tx.ConsumeGrant(now, grant, Purpose.PasskeyRemoval, who);
      if granted.Err? {
        return Rejected(granted.error);
      }
      if !HasOtherCredential(tx.db, granted.value, None, Some(passkey)) {
        return Rejected(Conflict);
      }
      tx.db := tx.db.(passkeys := WithoutPasskey(tx.db.passkeys, granted.value, passkey));
      tx.Invalidate(granted.value, now);
      db := tx.db;
      return Done;
    }

    // ---------- app.go ----------

    /** The inner loop of runDeletions: one due account a transaction, until one fails or none is due at the last reading of the clock.
        A failed transaction leaves nothing behind. What the loop requires holds in every reachable state. */
    method DrainDeletions(clock: nat -> Time, fails: nat -> bool) returns (removed: nat, failed: bool)
      requires forall x | x in db.accounts :: x < db.supply
      requires forall x | x in db.deletions :: x in db.accounts
      modifies this
      ensures db == RunFrom(cfg, old(db), Drain(clock, removed))
      ensures |db.deletions| + removed == |old(db).deletions|
      ensures failed == fails(removed) && forall k: nat | k < removed :: !fails(k)
      ensures !failed ==> forall x :: !Due(db.accounts, db.deletions, x, clock(removed))
    {
      hide NextDue, Apply, DeleteDueTx;
      removed, failed := 0, false;
      while true
        invariant db == RunFrom(cfg, old(db), Drain(clock, removed))
        invariant |db.deletions| + removed == |old(db).deletions|
        invariant forall k: nat | k < removed :: !fails(k)
        invariant forall x | x in db.accounts :: x < db.supply
        invariant forall x | x in db.deletions :: x in db.accounts
        decreases |db.deletions|
      {
        if fails(removed) {
          return removed, true;
        }
        var now := clock(removed);
        DrainStep(cfg, db, now);
        DrainGrows(cfg, old(db), clock, removed);
        var answer := DeleteDueAccount(now);
        if answer != Flag(true) {
          return removed, false;
        }
        removed := removed + 1;
      }
    }

  }

  /** A method on an open transaction ended as its specification; what an error leaves is forgotten. */
  predicate Finished(spec: Outcome, r: Result<Answer>, after: DB) {
    if spec.Ok? then r == Ok(spec.value.answer) && after == spec.value.db else r == Err(spec.error)
  }

  lemma ProofKeepsRows(cfg: Config, db: DB, now: Time, id: Id, cid: Id, proof: Proof)
    requires id in db.procs && cid in db.steps
    ensures Usable(db, id, Verify(cfg, db, now, id, db.procs[id], cid, db.steps[cid], proof))
  {
    hide *;
  }

  lemma AcceptKeeps(db: DB, id: Id, cid: Id, now: Time)
    requires cid in db.steps
    ensures Challenges.AcceptStep(db, id, cid, now).procs == db.procs
  {
  }

  /** The clock readings of the transactions of a provider attempt. */
  datatype Times = Times(begin: Time, judge: Time, finish: Time, reject: Time)

  /** The first two transactions, and what the provider said between them. */
  function ExchangedBy(cfg: Config, db: DB, at: Times, id: Id, cid: Id, flow: Id, who: Principal, kind: Kind,
                       proof: ProviderProof, exchanged: Result<ProviderIdentity>, between: seq<Call>): Commit {
    var purpose := if id in db.procs then db.procs[id].purpose else SignIn;
    var begun := Settle(db, BeginProviderTx(cfg, db, at.begin, id, cid, flow, who, kind, proof));
    if !begun.answer.Exchanging? then begun
    else
      var d := RunFrom(cfg, begun.db, between);
      if exchanged.Err? then Commit(d, Rejected(exchanged.error))
      else
        var judged := JudgeIdentity(cfg, at.judge, purpose, kind, begun.answer.nonceHash, exchanged.value);
        if judged.Fail? then Commit(d, Rejected(judged.error))
        else Settle(d, FinishProviderTx(cfg, d, at.finish, id, cid, flow, who, kind, exchanged.value.subject))
  }

  /** All of it: only a rejection for credentials is counted. */
  function AttemptedBy(cfg: Config, db: DB, at: Times, id: Id, cid: Id, flow: Id, who: Principal, kind: Kind,
                       proof: ProviderProof, exchanged: Result<ProviderIdentity>, between: seq<Call>, before: seq<Call>): Commit {
    var middle := ExchangedBy(cfg, db, at, id, cid, flow, who, kind, proof, exchanged, between);
    if middle.answer != Rejected(Credentials) then middle
    else
      var d := RunFrom(cfg, middle.db, before);
      Settle(d, RejectProviderTx(cfg, d, at.reject, id, cid, flow, who))
  }

  // ---------- usernames ----------

  /** The letters of a longer name. */
  lemma LettersGrow(s: string, n: nat)
    requires n < |s|
    ensures Letters(s[..n + 1]) == Letters(s[..n]) + LetterOf(s[n])
  {
    assert s[..n + 1][..n] == s[..n];
  }

  /** validUsername, with its loop over the letters and its loop over the forbidden words. */
  method CheckUsername(forbidden: seq<string>, s: string) returns (valid: bool)
    ensures valid == ValidUsername(forbidden, s)
  {
    hide Contains;
    if |s| < 5 || |s| > 64 || s[0] < 'a' || s[0] > 'z' || s[|s| - 1] == '_' || Contains(s, "__") {
      return false;
    }
    var letters := "";
    for i := 0 to |s|
      invariant letters == Letters(s[..i])
      invariant forall j | 0 <= j < i :: UsernameChar(s[j])
    {
      var c := s[i];
      if !UsernameChar(c) {
        return false;
      }
      LettersGrow(s, i);
      if 'a' <= c <= 'z' {
        letters := letters + [c];
      } else if c == '1' {
        letters := letters + "i";
      }
    }
    assert s[..|s|] == s;
    for i := 0 to |forbidden|
      invariant forall w | 0 <= w < i :: !Contains(letters, forbidden[w])
    {
      if Contains(letters, forbidden[i]) {
        return false;
      }
    }
    return true;
  }

  // ---------- operations of several transactions, as runs ----------

  function LinkedBy(cfg: Config, db: DB, begin: Time, finish: Time, who: Principal, grant: Id, provider: Provider, state: Id,
                    exchanged: Result<ProviderIdentity>, between: seq<Call>): Commit {
    var begun := Settle(db, BeginLinkTx(cfg, db, begin, who, provider, state));
    if !begun.answer.Exchanging? then begun
    else
      var d := RunFrom(cfg, begun.db, between);
      if exchanged.Err? then Commit(d, Rejected(exchanged.error))
      else
        var i := exchanged.value;
        if i.subject == "" || (provider == GoogleProvider && (i.nonce.None? || begun.answer.nonceHash != Digest(NonceTag, 0, i.nonce.value)))
        then Commit(d, Rejected(Credentials))
        else Settle(d, FinishLinkTx(d, finish, who, grant, provider, i.subject))
  }

  /** The first n deletions of a drain. */
  function Drain(clock: nat -> Time, n: nat): seq<Call> {
    if n == 0 then [] else Drain(clock, n - 1) + [Call(clock(n - 1), DeleteDue)]
  }

  lemma DrainGrows(cfg: Config, db: DB, clock: nat -> Time, n: nat)
    ensures RunFrom(cfg, db, Drain(clock, n + 1)) == Apply(cfg, RunFrom(cfg, db, Drain(clock, n)), Call(clock(n), DeleteDue)).db
  {
    hide Apply;
    var d := Drain(clock, n + 1);
    assert d[..|d| - 1] == Drain(clock, n);
  }

  // One deletion takes one request, its own; without one nobody is due.
  lemma DrainStep(cfg: Config, db: DB, now: Time)
    requires forall x | x in db.accounts :: x < db.supply
    requires forall x | x in db.deletions :: x in db.accounts
    ensures var c := Settle(db, DeleteDueTx(db, now));
      && c == Apply(cfg, db, Call(now, DeleteDue)) && c.db.supply == db.supply
      && (forall x | x in c.db.accounts :: x in db.accounts)
      && (forall x | x in c.db.deletions :: x in c.db.accounts)
      && if c.answer == Flag(true) then |c.db.deletions| + 1 == |db.deletions|
         else c.db == db && forall x :: !Due(db.accounts, db.deletions, x, now)
  {
    hide NextDue, DropAccount;
    var due := NextDue(db.accounts, db.deletions, db.supply, now);
    if due.Some? {
      var d := Notify(Enqueue(db, ProfileDeleted(due.value, db.deletions[due.value].shared)), due.value, AccountDeleted);
      DropOneRequest(d, due.value);
      OneFewer(db.deletions, due.value);
    }
  }

  lemma DropOneRequest(db: DB, x: Id)
    requires x in db.deletions && forall y | y in db.deletions :: y in db.accounts
    ensures var d := DropAccount(db, x);
      d.supply == db.supply && d.accounts == db.accounts - {x} && d.deletions == db.deletions - {x}
  {
    assert DropAccount(db, x).deletions == map d | d in db.deletions && d in db.accounts - {x} :: db.deletions[d];
  }

  lemma OneFewer(m: map<Id, Deletion>, x: Id)
    requires x in m
    ensures |m - {x}| + 1 == |m|
  {
    assert m.Keys == (m - {x}).Keys + {x};
  }
}
