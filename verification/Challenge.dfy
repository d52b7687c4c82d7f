/** internal/authentication/challenge.go and steps.go: creating a step and proving it. */
module Challenges {
  import opened Base
  import opened Secrets
  import opened Store
  import opened Answers
  import opened Processes

  datatype CredentialType = Native | Code | Unrecognised

  datatype OAuthOptions = OAuthOptions(credential: CredentialType, redirect: string)

  /** The answer of the WebAuthn verifier about a presented assertion. */
  datatype Assertion = Unparsable | Assertion(account: Id, credential: Id, accepted: bool)

  datatype Proof =
    | RegistrationProof(email: string)
    | SetupProof(password: Store.Password)
    | PasswordProof(login: string, password: Store.Password)
    | EmailProof(code: Id)
    | TotpProof(digits: string)
    | BackupProof(code: Id)
    | PasskeyProof(assertion: Assertion)
    | OtherProof(kind: Kind)
  {
    function Method(): Kind {
      match this
      case RegistrationProof(_) => Registration
      case SetupProof(_) => PasswordSetup
      case PasswordProof(_, _) => Kind.Password
      case EmailProof(_) => Email
      case TotpProof(_) => Totp
      case BackupProof(_) => BackupCode
      case PasskeyProof(_) => Passkey
      case OtherProof(k) => k
    }
  }

  predicate IsProvider(k: Kind) {
    k == Google || k == Vk
  }

  function ProviderOf(k: Kind): Provider
    requires IsProvider(k)
  {
    if k == Google then GoogleProvider else VkProvider
  }

  // ---------- steps ----------

  predicate PendingStep(s: Step, id: Id) {
    s.process == id && s.status == Pending
  }

  /** Cancels the pending steps of a process that are selected by kind (or all kinds), except one. */
  function CancelPending(steps: map<Id, Step>, id: Id, kind: Option<Kind>, keep: Option<Id>): map<Id, Step> {
    map s | s in steps ::
      if PendingStep(steps[s], id) && (kind.None? || steps[s].kind == kind.value) && keep != Some(s)
      then steps[s].(status := Cancelled) else steps[s]
  }

  function Earlier(a: Time, b: Time): Time {
    if a > b then b else a
  }

  /** code is the random six-digit code, libraryOk whether the WebAuthn or provider library call succeeds. */
  function CreateChallengeTx(cfg: Config, db: DB, now: Time, id: Id, flow: Id, kind: Kind, who: Principal,
                             options: OAuthOptions, code: Id, libraryOk: bool): Outcome {
    var p :- Load(db, now, id, flow, who);
    :- Need(p.status == Pending, Conflict);
    var next :- Next(cfg, db, id, p);
    :- Need(kind in next, Forbidden);
    var step := Step(id, kind, Pending, 0, Earlier(now + cfg.challengeTTL, p.expires), None, NoDetail);
    FillStep(cfg, AddStep(db, id, step), id, db.supply, step, flow, options, code, libraryOk)
  }

  /** The step takes the next id, and the place of the pending steps of its kind. */
  function AddStep(db: DB, id: Id, step: Step): DB {
    db.(steps := CancelPending(db.steps, id, Some(step.kind), None)[db.supply := step], supply := db.supply + 1)
  }

  function FillStep(cfg: Config, d: DB, id: Id, cid: Id, step: Step, flow: Id, options: OAuthOptions, code: Id, libraryOk: bool): Outcome {
    if IsProvider(step.kind) then CreateOAuth(cfg, d, cid, step, flow, options, libraryOk)
    else if step.kind == Passkey then
      :- Need(cfg.passkeys && libraryOk, Unavailable);
      Ok(Commit(d, Challenged(cid, step.kind, step.expires, None, None)))
    else if step.kind == Email then
      :- Need(cfg.mail, Unavailable);
      :- Need(id in d.signups, Internal);
      Ok(Commit(SendCode(d, id, cid, step, code), Challenged(cid, step.kind, step.expires, None, None)))
    else Ok(Commit(d, Challenged(cid, step.kind, step.expires, None, None)))
  }

  /** The code goes to the registered address; the step keeps its hash. */
  function SendCode(d: DB, id: Id, cid: Id, step: Step, code: Id): DB
    requires id in d.signups
  {
    var email := d.signups[id].email;
    var sent := step.(detail := CodeSent(email, Digest(EmailCodeTag, cid, code)));
    Enqueue(d.(steps := d.steps[cid := sent]), Mail(email, RegistrationCode, Some(code)))
  }

  function CreateOAuth(cfg: Config, d: DB, cid: Id, step: Step, flow: Id, o: OAuthOptions, libraryOk: bool): Outcome
    requires IsProvider(step.kind)
  {
    if o.credential == Unrecognised then Err(Invalid) else
    :- Need(cfg.Offers(ProviderOf(step.kind)), Unavailable);
    var nonce := d.supply;
    if o.credential == Native then
      :- Need(step.kind == Google && o.redirect == "", Invalid);
      Ok(Commit(d.(steps := d.steps[cid := step.(detail := NonceSent(Digest(NonceTag, 0, nonce)))], supply := d.supply + 1),
                Challenged(cid, step.kind, step.expires, Some(nonce), None)))
    else
      :- Need(o.redirect in cfg.redirects, Invalid);
      :- Need(libraryOk, Internal);
      var state, verifier := d.supply + 1, d.supply + 2;
      var request := OAuthRequest(ProviderOf(step.kind), Some(cid), None, Digest(BindingTag, 0, flow), o.redirect,
                                  Digest(NonceTag, 0, nonce), verifier, step.expires);
      Ok(Commit(d.(oauth := d.oauth[Digest(StateTag, 0, state) := request], supply := d.supply + 3),
                Challenged(cid, step.kind, step.expires, None, Some(state))))
  }

  // ---------- proofs ----------

  /** The effect of an accepted proof; account is the account it binds the process to, if it does. */
  datatype Proved = Proved(db: DB, account: Option<Id>)

  function Bind(db: DB, id: Id, account: Id): DB
    requires id in db.procs
  {
    db.(procs := db.procs[id := db.procs[id].(account := Some(account))])
  }

  predicate AcceptablePassword(password: Store.Password) {
    8 <= |password| <= 72
  }

  /** A proof leaves the steps alone and keeps its process. */
  predicate Usable(db: DB, id: Id, r: Result<Proved>) {
    r.Ok? ==> id in r.value.db.procs && r.value.db.steps == db.steps
  }

  function VerifyRegistration(cfg: Config, db: DB, id: Id, p: Process, raw: string): (r: Result<Proved>)
    requires id in db.procs
    ensures Usable(db, id, r)
  {
    var email := cfg.normalize(raw);
    :- Need(cfg.parsesAsAddress(email), Invalid);
    :- Need(id !in db.signups, Internal);
    Ok(Proved(db.(signups := db.signups[id := Signup(email, None)]), None))
  }

  function VerifySetup(db: DB, id: Id, p: Process, password: Store.Password): (r: Result<Proved>)
    requires id in db.procs
    ensures Usable(db, id, r)
  {
    if !AcceptablePassword(password) then Err(Invalid) else
    Ok(Proved(if id in db.signups then ChoosePassword(db, id, password) else db, None))
  }

  function ChoosePassword(db: DB, id: Id, password: Store.Password): DB
    requires id in db.signups
  {
    db.(signups := db.signups[id := db.signups[id].(password := Some(Bcrypt(password, db.supply)))], supply := db.supply + 1)
  }

  /** Sensitive processes prove their own account; a sign-in finds it by email or username. */
  function PasswordAccount(cfg: Config, db: DB, p: Process, login: string): (r: Option<Id>)
    ensures r.Some? ==> r.value in db.accounts
  {
    if !Sensitive(p.purpose) then AccountByLogin(db.accounts, db.supply, cfg.normalize(login))
    else if p.account.Some? && p.account.value in db.accounts then p.account
    else None
  }

  function VerifyPassword(cfg: Config, db: DB, id: Id, p: Process, login: string, password: Store.Password): (r: Result<Proved>)
    requires id in db.procs
    ensures Usable(db, id, r)
  {
    if !(Sensitive(p.purpose) <==> login == "") then Err(Invalid) else
    var found := PasswordAccount(cfg, db, p, login);
    :- Need(found.Some? && PasswordFits(cfg, db.accounts[found.value], password), Credentials);
    Ok(Proved(Bind(db, id, found.value), found))
  }

  function VerifyEmail(db: DB, id: Id, p: Process, cid: Id, step: Step, code: Id): (r: Result<Proved>)
    requires id in db.procs
    ensures Usable(db, id, r)
  {
    if !step.detail.CodeSent? then Err(Internal) else
    :- Need(step.detail.hash == Digest(EmailCodeTag, cid, code), Credentials);
    Ok(Proved(db, None))
  }

  function VerifyTotp(cfg: Config, db: DB, now: Time, id: Id, p: Process, digits: string): (r: Result<Proved>)
    requires id in db.procs
    ensures Usable(db, id, r)
  {
    if p.account.None? then Err(Forbidden) else
    var a := p.account.value;
    :- Need(a in db.totp, Credentials);
    var used := TotpStep(cfg.mac, db.totp[a].key, digits, now, db.totp[a].last);
    :- Need(used.Some?, Credentials);
    Ok(Proved(db.(totp := db.totp[a := db.totp[a].(last := used.value)]), None))
  }

  function VerifyBackup(db: DB, id: Id, p: Process, code: Id): (r: Result<Proved>)
    requires id in db.procs
    ensures Usable(db, id, r)
  {
    if p.account.None? then Err(Forbidden) else
    var key := BackupKey(p.account.value, Digest(BackupTag, p.account.value, code));
    :- Need(key in db.backups, Credentials);
    Ok(Proved(db.(backups := db.backups - {key}), None))
  }

  function VerifyPasskey(cfg: Config, db: DB, id: Id, p: Process, assertion: Assertion): (r: Result<Proved>)
    requires id in db.procs
    ensures Usable(db, id, r)
  {
    if !cfg.passkeys then Err(Unavailable) else
    :- Need(assertion.Assertion?, Credentials);
    var a := assertion.account;
    :- Need(Sensitive(p.purpose) ==> p.account == Some(a), Credentials);
    :- Need(a in db.accounts, Credentials);
    :- Need(!db.accounts[a].blocked, Forbidden);
    :- Need(assertion.accepted && HasPasskey(db.passkeys, a, assertion.credential), Credentials);
    Ok(Proved(Bind(db, id, a), Some(a)))
  }

  function Verify(cfg: Config, db: DB, now: Time, id: Id, p: Process, cid: Id, step: Step, proof: Proof): (r: Result<Proved>)
    requires id in db.procs
    ensures Usable(db, id, r)
  {
    match proof
    case RegistrationProof(raw) => VerifyRegistration(cfg, db, id, p, raw)
    case SetupProof(password) => VerifySetup(db, id, p, password)
    case PasswordProof(login, password) => VerifyPassword(cfg, db, id, p, login, password)
    case EmailProof(code) => VerifyEmail(db, id, p, cid, step, code)
    case TotpProof(digits) => VerifyTotp(cfg, db, now, id, p, digits)
    case BackupProof(code) => VerifyBackup(db, id, p, code)
    case PasskeyProof(assertion) => VerifyPasskey(cfg, db, id, p, assertion)
    case OtherProof(_) => Err(Unavailable)
  }

  predicate PasswordFits(cfg: Config, a: Account, password: Store.Password) {
    a.password.Some? && cfg.bcryptMatches(a.password.value, password) && !a.blocked
  }

  predicate HasPasskey(passkeys: map<Id, PasskeyRow>, account: Id, credential: Id) {
    exists k | k in passkeys :: passkeys[k] == PasskeyRow(account, credential)
  }

  // ---------- outcomes of an attempt ----------

  function Miss(status: Status, failures: nat, limit: nat): Status {
    if failures + 1 >= limit then Failed else status
  }

  /** The committed half of ErrCredentials. */
  function CountFailure(cfg: Config, db: DB, id: Id, cid: Id): DB
    requires id in db.procs && cid in db.steps
  {
    var p, s := db.procs[id], db.steps[cid];
    db.(procs := db.procs[id := p.(failures := p.failures + 1, status := Miss(p.status, p.failures, cfg.maxAttempts))],
        steps := db.steps[cid := s.(failures := s.failures + 1, status := Miss(s.status, s.failures, cfg.maxAttempts))])
  }

  function FailureAnswer(cfg: Config, p: Process): Answer {
    Rejected(if p.failures + 1 >= cfg.maxAttempts then Attempts else Credentials)
  }

  /** Completes the step and cancels its alternatives. */
  function AcceptStep(db: DB, id: Id, cid: Id, now: Time): DB
    requires cid in db.steps
  {
    db.(steps := CancelPending(db.steps[cid := db.steps[cid].(status := Completed, completed := Some(now))], id, None, Some(cid)))
  }

  predicate EmailTaken(db: DB, email: string) {
    exists a | a in db.accounts :: db.accounts[a].email == email
  }

  function FailRegistration(db: DB, id: Id): DB
    requires id in db.procs
  {
    db.(procs := db.procs[id := db.procs[id].(status := Failed)],
        steps := CancelPending(db.steps, id, None, None),
        signups := if id in db.signups then db.signups[id := db.signups[id].(password := None)] else db.signups)
  }

  /** register: the account row, its lifecycle event, and the end of the registration row. */
  function Register(db: DB, id: Id): DB
    requires id in db.signups
  {
    var r := db.signups[id];
    db.(accounts := db.accounts[db.supply := Account(r.email, None, r.password, false)],
        outbox := db.outbox + [ProfileCreated(db.supply)],
        signups := db.signups - {id},
        supply := db.supply + 1)
  }

  /** The new account, with its process completed on it. */
  function Enlist(cfg: Config, db: DB, id: Id, now: Time): DB
    requires id in db.procs && id in db.signups
  {
    Finish(cfg, Register(db, id), id, db.supply, now)
  }

  predicate AddressTaken(db: DB, id: Id) {
    id in db.signups && EmailTaken(db, db.signups[id].email)
  }

  /** A unique-key conflict is disclosed only here and after the e-mail proof, once ownership is shown. */
  function CompleteSignUp(cfg: Config, db: DB, now: Time, id: Id, cid: Id): Outcome
    requires id in db.procs && id in db.signups
  {
    if AddressTaken(db, id) then Ok(Commit(FailRegistration(db, id), Rejected(AccountExists)))
    else Ok(Commit(Enlist(cfg, db, id, now), Attempted(cid, View(id, SignUp, Completed, [], Some(db.supply + 1)))))
  }

  function AfterSignUpStep(cfg: Config, db: DB, now: Time, id: Id, cid: Id, kind: Kind): Outcome
    requires id in db.procs
  {
    if kind == Email && AddressTaken(db, id) then
      Ok(Commit(FailRegistration(db, id), Rejected(AccountExists)))
    else
      var next :- Next(cfg, db, id, db.procs[id]);
      if next != [] then Ok(Commit(db, Attempted(cid, View(id, SignUp, Pending, next, None))))
      else
        :- Need(id in db.signups, Internal);
        :- Need(db.signups[id].password.Some?, Forbidden);
        CompleteSignUp(cfg, db, now, id, cid)
  }

  function AfterFactor(cfg: Config, db: DB, now: Time, id: Id, cid: Id): Outcome
    requires id in db.procs
  {
    var p := db.procs[id];
    var next :- Next(cfg, db, id, p);
    if next != [] then Ok(Commit(db, Attempted(cid, View(id, p.purpose, p.status, next, None))))
    else
      :- Need(p.account.Some?, Internal);
      Ok(Commit(Finish(cfg, db, id, p.account.value, now),
                Attempted(cid, View(id, p.purpose, Completed, [], Some(db.supply)))))
  }

  /** The step is completed, and the process moves on or completes. */
  function Proceed(cfg: Config, db: DB, now: Time, id: Id, cid: Id, purpose: Purpose, kind: Kind): Outcome
    requires id in db.procs && cid in db.steps
  {
    var d := AcceptStep(db, id, cid, now);
    if purpose == SignUp then AfterSignUpStep(cfg, d, now, id, cid, kind)
    else AfterFactor(cfg, d, now, id, cid)
  }

  function AttemptTx(cfg: Config, db: DB, now: Time, id: Id, cid: Id, flow: Id, who: Principal, proof: Proof): Outcome {
    var p :- Load(db, now, id, flow, who);
    :- Need(p.status == Pending, Conflict);
    :- Need(cid in db.steps && db.steps[cid].process == id, Unauthorized);
    var step := db.steps[cid];
    :- Need(step.status == Pending && step.expires > now, Conflict);
    :- Need(step.kind == proof.Method(), Invalid);
    var next :- Next(cfg, db, id, p);
    :- Need(step.kind in next, Forbidden);
    Judge(cfg, db, now, id, cid, Verify(cfg, db, now, id, p, cid, step, proof))
  }

  /** What follows the verdict on a proof; only a wrong proof is committed as a failure. */
  function Judge(cfg: Config, db: DB, now: Time, id: Id, cid: Id, verdict: Result<Proved>): Outcome
    requires id in db.procs && cid in db.steps
    requires Usable(db, id, verdict)
  {
    match verdict
    case Err(e) => if e == Credentials then Ok(Commit(CountFailure(cfg, db, id, cid), FailureAnswer(cfg, db.procs[id]))) else Err(e)
    case Ok(v) => Proceed(cfg, v.db, now, id, cid, db.procs[id].purpose, db.steps[cid].kind)
  }
}
