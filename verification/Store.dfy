/** The tables of schema/initial.sql as maps, their foreign keys, and the lookups the engine makes. */
module Store {
  import opened Base
  import opened Secrets

  type Password = Bytes

  /** bcrypt output: the password it was made from and its random salt. */
  datatype PasswordHash = Bcrypt(password: Password, salt: Id)

  datatype Purpose =
    | SignIn | SignUp | PasswordChange | EmailChanging | AccountDeletion | TotpEnrollment | TotpRemoval
    | PasskeyEnrollment | PasskeyRemoval | BackupCodesRotation | IdentityLink | IdentityUnlink

  datatype Status = Pending | Completed | Failed | Cancelled

  /** The kinds of step; a method name and a persisted step type denote the same kind. */
  datatype Kind = Registration | PasswordSetup | Password | Email | Totp | BackupCode | Google | Vk | Passkey

  datatype Provider = GoogleProvider | VkProvider

  /** Who calls: Anonymous is a principal with a nil account or no session number. */
  datatype Principal = Anonymous | Bearer(account: Id, session: Id)

  // ---------- rows ----------

  datatype Account = Account(email: string, username: Option<string>, password: Option<PasswordHash>, blocked: bool)

  datatype Session = Session(account: Id, refresh: Digest, expires: Time)

  datatype Grant = Grant(hash: Digest, expires: Time)

  /** A row of authentications. */
  datatype Process = Process(
    purpose: Purpose, status: Status, account: Option<Id>, session: Option<Id>, flow: Digest,
    failures: nat, expires: Time, completed: Option<Time>, invalid: Option<Time>, grant: Option<Grant>)

  /** The per-kind extension row of a step. */
  datatype Detail = NoDetail | CodeSent(email: string, hash: Digest) | NonceSent(hash: Digest)

  datatype Step = Step(
    process: Id, kind: Kind, status: Status, failures: nat, expires: Time, completed: Option<Time>, detail: Detail)

  datatype Signup = Signup(email: string, password: Option<PasswordHash>)

  datatype OAuthRequest = OAuthRequest(
    provider: Provider, step: Option<Id>, session: Option<Id>, binding: Digest, redirect: string,
    nonce: Digest, verifier: Id, expires: Time)

  datatype Stage = AwaitingPrevious | AwaitingNew

  datatype EmailChangeRequest = EmailChangeRequest(previous: string, email: string, stage: Stage, token: Digest, expires: Time)

  datatype ResetRequest = ResetRequest(token: Digest, expires: Time)

  datatype Deletion = Deletion(shared: bool, at: Time)

  datatype TotpFactor = TotpFactor(key: Id, last: nat)

  datatype Activation = Activation(session: Id, key: Id, expires: Time)

  datatype PasskeyRow = PasskeyRow(account: Id, credential: Id)

  datatype PasskeyRequest = PasskeyRequest(session: Id, expires: Time)

  datatype IdentityKey = IdentityKey(account: Id, provider: Provider)

  datatype BackupKey = BackupKey(account: Id, hash: Digest)

  datatype Template =
    | RegistrationCode | PasswordReset | PasswordChanged | UsernameChanged | EmailChangePrevious | EmailChangeNew
    | DeletionRequested | AccountDeleted | NewLogin

  /** A row of outbox as the engine writes it; secret is the code or link token in the body. */
  datatype Message =
    | ProfileCreated(account: Id)
    | ProfileDeleted(account: Id, shared: bool)
    | Mail(to: string, template: Template, secret: Option<Id>)

  /** The whole database. supply counts the ids and random tokens drawn; outbox only grows here. */
  datatype DB = DB(
    accounts: map<Id, Account>,
    sessions: map<Id, Session>,
    procs: map<Id, Process>,
    steps: map<Id, Step>,
    signups: map<Id, Signup>,
    oauth: map<Digest, OAuthRequest>,
    changes: map<Id, EmailChangeRequest>,
    resets: map<Id, ResetRequest>,
    deletions: map<Id, Deletion>,
    totp: map<Id, TotpFactor>,
    activations: map<Id, Activation>,
    passkeys: map<Id, PasskeyRow>,
    passkeyRequests: map<Id, PasskeyRequest>,
    identities: map<IdentityKey, string>,
    backups: set<BackupKey>,
    outbox: seq<Message>,
    supply: Id)

  const EMPTY := DB(map[], map[], map[], map[], map[], map[], map[], map[], map[], map[], map[], map[], map[], map[], {}, [], 1)

  type Limit = n: nat | n > 0 witness 10

  /** The engine's settings, and the libraries it calls as oracles. */
  datatype Config = Config(
    flowTTL: nat, challengeTTL: nat, grantTTL: nat, reuseTTL: nat, maxAttempts: Limit,
    google: bool, vk: bool, passkeys: bool, mail: bool, redirects: set<string>, forbidden: seq<string>,
    mac: Mac,
    bcryptMatches: (PasswordHash, Password) -> bool,
    normalize: string -> string,
    parsesAsAddress: string -> bool)
  {
    predicate Offers(p: Provider) {
      match p
      case GoogleProvider => google
      case VkProvider => vk
    }
  }

  // ---------- foreign keys ----------

  predicate OAuthHasParent(o: OAuthRequest, steps: map<Id, Step>, sessions: map<Id, Session>) {
    && (o.step.Some? ==> o.step.value in steps)
    && (o.session.Some? ==> o.session.value in sessions)
  }

  // ON DELETE CASCADE, a level at a time: each drops the rows whose parent is gone.

  function CascadeProcesses(db: DB): DB {
    var steps := map s | s in db.steps && db.steps[s].process in db.procs :: db.steps[s];
    db.(steps := steps,
        signups := map r | r in db.signups && r in db.procs :: db.signups[r],
        oauth := map o | o in db.oauth && (db.oauth[o].step.Some? ==> db.oauth[o].step.value in steps) :: db.oauth[o])
  }

  function WithoutSessionOrphans(db: DB): DB {
    db.(
      procs := map p | p in db.procs && (db.procs[p].session.Some? ==> db.procs[p].session.value in db.sessions) :: db.procs[p],
      oauth := map o | o in db.oauth && (db.oauth[o].session.Some? ==> db.oauth[o].session.value in db.sessions) :: db.oauth[o],
      activations := map t | t in db.activations && db.activations[t].session in db.sessions :: db.activations[t],
      passkeyRequests := map r | r in db.passkeyRequests && db.passkeyRequests[r].session in db.sessions :: db.passkeyRequests[r])
  }

  function CascadeSessions(db: DB): DB {
    CascadeProcesses(WithoutSessionOrphans(db))
  }

  function WithoutAccountOrphans(db: DB): DB {
    db.(
      sessions := map s | s in db.sessions && db.sessions[s].account in db.accounts :: db.sessions[s],
      procs := map p | p in db.procs && (db.procs[p].account.Some? ==> db.procs[p].account.value in db.accounts) :: db.procs[p],
      changes := map c | c in db.changes && c in db.accounts :: db.changes[c],
      resets := map r | r in db.resets && r in db.accounts :: db.resets[r],
      deletions := map d | d in db.deletions && d in db.accounts :: db.deletions[d],
      totp := map t | t in db.totp && t in db.accounts :: db.totp[t],
      activations := map t | t in db.activations && t in db.accounts :: db.activations[t],
      passkeys := map k | k in db.passkeys && db.passkeys[k].account in db.accounts :: db.passkeys[k],
      identities := map i | i in db.identities && i.account in db.accounts :: db.identities[i],
      backups := set b | b in db.backups && b.account in db.accounts)
  }

  function CascadeAccounts(db: DB): DB {
    CascadeSessions(WithoutAccountOrphans(db))
  }

  function DropProcesses(db: DB, keep: map<Id, Process>): DB {
    CascadeProcesses(db.(procs := keep))
  }

  function DropSessions(db: DB, gone: set<Id>): DB {
    CascadeSessions(db.(sessions := map s | s in db.sessions && s !in gone :: db.sessions[s]))
  }

  function DropAccount(db: DB, account: Id): DB {
    CascadeAccounts(db.(accounts := db.accounts - {account}))
  }

  function SessionsOf(db: DB, account: Id): set<Id> {
    set s | s in db.sessions && db.sessions[s].account == account
  }

  // ---------- lookups by something other than the key: the scan meets the smallest id first ----------

  function AccountByEmail(accounts: map<Id, Account>, n: nat, email: string): (r: Option<Id>)
    ensures r.Some? ==> r.value in accounts && accounts[r.value].email == email
    ensures r.None? ==> forall a | a in accounts && a < n :: accounts[a].email != email
  {
    if n == 0 then None
    else
      var r := AccountByEmail(accounts, n - 1, email);
      if r.Some? then r
      else if n - 1 in accounts && accounts[n - 1].email == email then Some(n - 1)
      else None
  }

  predicate HasLogin(a: Account, login: string) {
    a.email == login || a.username == Some(login)
  }

  function AccountByLogin(accounts: map<Id, Account>, n: nat, login: string): (r: Option<Id>)
    ensures r.Some? ==> r.value in accounts && HasLogin(accounts[r.value], login)
    ensures r.None? ==> forall a | a in accounts && a < n :: !HasLogin(accounts[a], login)
  {
    if n == 0 then None
    else
      var r := AccountByLogin(accounts, n - 1, login);
      if r.Some? then r
      else if n - 1 in accounts && HasLogin(accounts[n - 1], login) then Some(n - 1)
      else None
  }

  predicate HoldsGrant(p: Process, hash: Digest) {
    p.grant.Some? && p.grant.value.hash == hash
  }

  function ProcByGrant(procs: map<Id, Process>, n: nat, hash: Digest): (r: Option<Id>)
    ensures r.Some? ==> r.value in procs && HoldsGrant(procs[r.value], hash)
    ensures r.None? ==> forall p | p in procs && p < n :: !HoldsGrant(procs[p], hash)
  {
    if n == 0 then None
    else
      var r := ProcByGrant(procs, n - 1, hash);
      if r.Some? then r
      else if n - 1 in procs && HoldsGrant(procs[n - 1], hash) then Some(n - 1)
      else None
  }

  function ResetByToken(resets: map<Id, ResetRequest>, n: nat, token: Digest): (r: Option<Id>)
    ensures r.Some? ==> r.value in resets && resets[r.value].token == token
    ensures r.None? ==> forall a | a in resets && a < n :: resets[a].token != token
  {
    if n == 0 then None
    else
      var r := ResetByToken(resets, n - 1, token);
      if r.Some? then r
      else if n - 1 in resets && resets[n - 1].token == token then Some(n - 1)
      else None
  }

  function ChangeByToken(changes: map<Id, EmailChangeRequest>, n: nat, token: Digest): (r: Option<Id>)
    ensures r.Some? ==> r.value in changes && changes[r.value].token == token
    ensures r.None? ==> forall a | a in changes && a < n :: changes[a].token != token
  {
    if n == 0 then None
    else
      var r := ChangeByToken(changes, n - 1, token);
      if r.Some? then r
      else if n - 1 in changes && changes[n - 1].token == token then Some(n - 1)
      else None
  }

  predicate OwnsIdentity(identities: map<IdentityKey, string>, account: Id, provider: Provider, subject: string) {
    IdentityKey(account, provider) in identities && identities[IdentityKey(account, provider)] == subject
  }

  function IdentityOwner(identities: map<IdentityKey, string>, n: nat, provider: Provider, subject: string): (r: Option<Id>)
    ensures r.Some? ==> OwnsIdentity(identities, r.value, provider, subject)
    ensures r.None? ==> forall a: Id | a < n :: !OwnsIdentity(identities, a, provider, subject)
  {
    if n == 0 then None
    else
      var r := IdentityOwner(identities, n - 1, provider, subject);
      if r.Some? then r
      else if OwnsIdentity(identities, n - 1, provider, subject) then Some(n - 1)
      else None
  }

  predicate Due(accounts: map<Id, Account>, deletions: map<Id, Deletion>, account: Id, now: Time) {
    account in accounts && account in deletions && deletions[account].at <= now
  }

  /** The account whose due request has the earliest deadline. */
  function NextDue(accounts: map<Id, Account>, deletions: map<Id, Deletion>, n: nat, now: Time): (r: Option<Id>)
    ensures r.Some? ==> Due(accounts, deletions, r.value, now)
    ensures forall a: Id | a < n && Due(accounts, deletions, a, now) :: r.Some? && deletions[r.value].at <= deletions[a].at
  {
    if n == 0 then None
    else
      var r := NextDue(accounts, deletions, n - 1, now);
      if !Due(accounts, deletions, n - 1, now) then r
      else if r.Some? && deletions[r.value].at <= deletions[n - 1].at then r
      else Some(n - 1)
  }

  // ---------- purposes ----------

  predicate Sensitive(p: Purpose) {
    p != SignIn && p != SignUp
  }

  function PurposeName(p: Purpose): string {
    match p
    case SignIn => "signIn"
    case SignUp => "signUp"
    case PasswordChange => "passwordChange"
    case EmailChanging => "emailChange"
    case AccountDeletion => "accountDeletion"
    case TotpEnrollment => "totpEnrollment"
    case TotpRemoval => "totpRemoval"
    case PasskeyEnrollment => "passkeyEnrollment"
    case PasskeyRemoval => "passkeyRemoval"
    case BackupCodesRotation => "backupCodesRotation"
    case IdentityLink => "identityLink"
    case IdentityUnlink => "identityUnlink"
  }

  /** validPurpose, returning the purpose it recognised. */
  function ParsePurpose(name: string): (r: Result<Purpose>)
    ensures r.Ok? ==> PurposeName(r.value) == name
  {
    match name
    case "signIn" => Ok(SignIn)
    case "signUp" => Ok(SignUp)
    case "passwordChange" => Ok(PasswordChange)
    case "emailChange" => Ok(EmailChanging)
    case "accountDeletion" => Ok(AccountDeletion)
    case "totpEnrollment" => Ok(TotpEnrollment)
    case "totpRemoval" => Ok(TotpRemoval)
    case "passkeyEnrollment" => Ok(PasskeyEnrollment)
    case "passkeyRemoval" => Ok(PasskeyRemoval)
    case "backupCodesRotation" => Ok(BackupCodesRotation)
    case "identityLink" => Ok(IdentityLink)
    case "identityUnlink" => Ok(IdentityUnlink)
    case _ => Err(Invalid)
  }
}
