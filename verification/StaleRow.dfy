/** A run in which cleaning up makes a difference: a request to change an address that lapsed before the second one. */
module StaleRow {
  import opened Base
  import opened Secrets
  import opened Store
  import opened Answers
  import opened Processes
  import opened Challenges
  import opened Sessions
  import opened Mails
  import opened Protocol
  import opened CleanedRuns

  const PASSWORD: Store.Password := [1, 2, 3, 4, 5, 6, 7, 8]
  const T: Time := 31 * MINUTE
  const OPTIONS := OAuthOptions(Native, "")
  const WHO := Bearer(7, 10)

  /** A service that sends mail, takes the three addresses as they are, and trusts a proof for longer than a link lives. */
  ghost predicate Permissive(cfg: Config) {
    && cfg.mail && cfg.flowTTL > 0 && cfg.challengeTTL > 0 && cfg.grantTTL > 0 && cfg.reuseTTL > T
    && (forall e: string :: cfg.normalize(e) == e && cfg.parsesAsAddress(e))
    && forall h, p :: cfg.bcryptMatches(h, p) <==> h.password == p
  }

  function World(accounts: map<Id, Account>, sessions: map<Id, Session>, procs: map<Id, Process>, steps: map<Id, Step>,
                 signups: map<Id, Signup>, changes: map<Id, EmailChangeRequest>, outbox: seq<Message>, supply: Id): DB {
    DB(accounts, sessions, procs, steps, signups, map[], changes, map[], map[], map[], map[], map[], map[], map[], {}, outbox, supply)
  }

  // ---------- signing up ----------

  function Joining(cfg: Config): Process {
    Process(SignUp, Pending, None, None, Digest(FlowTag, 0, 2), 0, cfg.flowTTL, None, None, None)
  }

  function OpenAt(cfg: Config, id: Id, kind: Kind): Step {
    Step(id, kind, Pending, 0, Earlier(cfg.challengeTTL, cfg.flowTTL), None, NoDetail)
  }

  function Closed(s: Step): Step {
    s.(status := Completed, completed := Some(0))
  }

  function CodeStep(cfg: Config): Step {
    OpenAt(cfg, 1, Email).(detail := CodeSent("a", Digest(EmailCodeTag, 4, 7)))
  }

  function S1(cfg: Config): DB {
    World(map[], map[], map[1 := Joining(cfg)], map[], map[], map[], [], 3)
  }

  function S2(cfg: Config): DB {
    S1(cfg).(steps := map[3 := OpenAt(cfg, 1, Registration)], supply := 4)
  }

  function S3(cfg: Config): DB {
    S1(cfg).(steps := map[3 := Closed(OpenAt(cfg, 1, Registration))], signups := map[1 := Signup("a", None)], supply := 4)
  }

  const CODE_MAIL := [Mail("a", RegistrationCode, Some(7))]

  function S4(cfg: Config): DB {
    S3(cfg).(steps := map[3 := Closed(OpenAt(cfg, 1, Registration)), 4 := CodeStep(cfg)], outbox := CODE_MAIL, supply := 5)
  }

  function S5(cfg: Config): DB {
    S4(cfg).(steps := map[3 := Closed(OpenAt(cfg, 1, Registration)), 4 := Closed(CodeStep(cfg))])
  }

  lemma Step1(cfg: Config)
    ensures Settle(EMPTY, StartTx(cfg, EMPTY, 0, "signUp", Anonymous)).db == S1(cfg)
  {
    assert ParsePurpose("signUp") == Ok(SignUp);
  }

  lemma Step2(cfg: Config)
    requires Permissive(cfg)
    ensures Settle(S1(cfg), CreateChallengeTx(cfg, S1(cfg), 0, 1, 2, Registration, Anonymous, OPTIONS, 0, true)).db == S2(cfg)
  {
    assert Load(S1(cfg), 0, 1, 2, Anonymous) == Ok(Joining(cfg));
    assert Next(cfg, S1(cfg), 1, Joining(cfg)) == Ok([Registration]);
  }

  lemma Step3(cfg: Config)
    requires Permissive(cfg)
    ensures Settle(S2(cfg), AttemptTx(cfg, S2(cfg), 0, 1, 3, 2, Anonymous, RegistrationProof("a"))).db == S3(cfg)
  {
    var db, d := S2(cfg), S3(cfg);
    assert Load(db, 0, 1, 2, Anonymous) == Ok(Joining(cfg));
    assert Next(cfg, db, 1, Joining(cfg)) == Ok([Registration]);
    var v := db.(signups := map[1 := Signup("a", None)]);
    assert VerifyRegistration(cfg, db, 1, Joining(cfg), "a") == Ok(Proved(v, None));
    assert AcceptStep(v, 1, 3, 0) == d;
    assert DoneKinds(d.steps, 1) == {Registration} by {
      assert DoneStep(d.steps[3], 1);
    }
    assert Next(cfg, d, 1, Joining(cfg)) == Ok([Email]);
    hide Load, Next, AcceptStep, VerifyRegistration;
  }

  lemma Step4(cfg: Config)
    requires Permissive(cfg)
    ensures Settle(S3(cfg), CreateChallengeTx(cfg, S3(cfg), 0, 1, 2, Email, Anonymous, OPTIONS, 7, true)).db == S4(cfg)
  {
    var db := S3(cfg);
    assert Load(db, 0, 1, 2, Anonymous) == Ok(Joining(cfg));
    assert DoneKinds(db.steps, 1) == {Registration} by {
      assert DoneStep(db.steps[3], 1);
    }
    assert Next(cfg, db, 1, Joining(cfg)) == Ok([Email]);
    assert CancelPending(db.steps, 1, Some(Email), None) == db.steps;
    hide Load, Next, CancelPending, DoneKinds;
  }

  lemma DoneRegistrationAndEmail(cfg: Config)
    ensures DoneKinds(S5(cfg).steps, 1) == {Registration, Email}
  {
    var steps := S5(cfg).steps;
    assert DoneStep(steps[3], 1) && DoneStep(steps[4], 1);
  }

  lemma Step5(cfg: Config)
    requires Permissive(cfg)
    ensures Settle(S4(cfg), AttemptTx(cfg, S4(cfg), 0, 1, 4, 2, Anonymous, EmailProof(7))).db == S5(cfg)
  {
    hide Load, Next, AcceptStep, VerifyEmail, DoneKinds, AddressTaken;
    ExpectsEmail(cfg);
    AcceptEmail(cfg);
  }

  lemma ExpectsEmail(cfg: Config)
    requires Permissive(cfg)
    ensures var db := S4(cfg);
      && Load(db, 0, 1, 2, Anonymous) == Ok(Joining(cfg)) && Next(cfg, db, 1, Joining(cfg)) == Ok([Email])
      && VerifyEmail(db, 1, Joining(cfg), 4, CodeStep(cfg), 7) == Ok(Proved(db, None))
  {
    var db := S4(cfg);
    assert DoneKinds(db.steps, 1) == {Registration} by {
      assert DoneStep(db.steps[3], 1);
    }
    hide DoneKinds;
  }

  lemma AcceptEmail(cfg: Config)
    ensures AcceptStep(S4(cfg), 1, 4, 0) == S5(cfg) && !AddressTaken(S5(cfg), 1)
    ensures Next(cfg, S5(cfg), 1, Joining(cfg)) == Ok([PasswordSetup])
  {
    DoneRegistrationAndEmail(cfg);
    hide DoneKinds;
  }

  function S6(cfg: Config): DB {
    S5(cfg).(steps := S5(cfg).steps[5 := OpenAt(cfg, 1, PasswordSetup)], supply := 6)
  }

  lemma Step6(cfg: Config)
    requires Permissive(cfg)
    ensures Settle(S5(cfg), CreateChallengeTx(cfg, S5(cfg), 0, 1, 2, PasswordSetup, Anonymous, OPTIONS, 0, true)).db == S6(cfg)
  {
    var db := S5(cfg);
    assert Load(db, 0, 1, 2, Anonymous) == Ok(Joining(cfg));
    DoneRegistrationAndEmail(cfg);
    assert Next(cfg, db, 1, Joining(cfg)) == Ok([PasswordSetup]);
    assert CancelPending(db.steps, 1, Some(PasswordSetup), None) == db.steps;
    hide Load, Next, CancelPending, DoneKinds;
  }

  const ME := Account("a", None, Some(Bcrypt(PASSWORD, 6)), false)

  function Joined(cfg: Config): Process {
    Joining(cfg).(status := Completed, account := Some(7), completed := Some(0), grant := Some(Grant(Digest(GrantTag, 0, 8), cfg.grantTTL)))
  }

  function JoinedSteps(cfg: Config): map<Id, Step> {
    S5(cfg).steps[5 := Closed(OpenAt(cfg, 1, PasswordSetup))]
  }

  function S7(cfg: Config): DB {
    World(map[7 := ME], map[], map[1 := Joined(cfg)], JoinedSteps(cfg), map[], map[], CODE_MAIL + [ProfileCreated(7)], 9)
  }

  lemma Step7(cfg: Config)
    requires Permissive(cfg)
    ensures Settle(S6(cfg), AttemptTx(cfg, S6(cfg), 0, 1, 5, 2, Anonymous, SetupProof(PASSWORD))).db == S7(cfg)
  {
    var db, p := S6(cfg), Joining(cfg);
    assert Load(db, 0, 1, 2, Anonymous) == Ok(p);
    assert DoneKinds(db.steps, 1) == {Registration, Email} by {
      assert DoneStep(db.steps[3], 1) && DoneStep(db.steps[4], 1);
    }
    assert Next(cfg, db, 1, p) == Ok([PasswordSetup]);
    var v := Chosen(cfg);
    ChooseSetup(cfg);
    hide Load, Next, AcceptStep, VerifySetup, AfterSignUpStep, S7, Chosen, JoinedSteps;
    AcceptSetup(cfg);
    Complete(cfg);
  }

  lemma ChooseSetup(cfg: Config)
    ensures VerifySetup(S6(cfg), 1, Joining(cfg), PASSWORD) == Ok(Proved(Chosen(cfg), None))
  {
    assert |PASSWORD| == 8;
    var db := S6(cfg);
    assert db.signups == map[1 := Signup("a", None)] && db.supply == 6;
    assert db.signups[1 := Signup("a", Some(Bcrypt(PASSWORD, 6)))] == map[1 := Signup("a", Some(Bcrypt(PASSWORD, 6)))];
  }

  function Chosen(cfg: Config): DB {
    S6(cfg).(signups := map[1 := Signup("a", Some(Bcrypt(PASSWORD, 6)))], supply := 7)
  }

  function SetUp(cfg: Config): DB {
    Chosen(cfg).(steps := JoinedSteps(cfg))
  }

  lemma AcceptSetup(cfg: Config)
    ensures AcceptStep(Chosen(cfg), 1, 5, 0) == SetUp(cfg)
  {
    var before, after := S6(cfg).steps, JoinedSteps(cfg);
    var closed := before[5 := Closed(before[5])];
    assert closed == after;
    assert CancelPending(after, 1, None, Some(5)) == after;
    hide CancelPending, JoinedSteps, S6;
  }

  lemma AllStagesDone(cfg: Config)
    ensures Next(cfg, SetUp(cfg), 1, Joining(cfg)) == Ok([])
  {
    var steps := SetUp(cfg).steps;
    assert DoneKinds(steps, 1) == {Registration, Email, PasswordSetup} by {
      assert DoneStep(steps[3], 1) && DoneStep(steps[4], 1) && DoneStep(steps[5], 1);
    }
    hide DoneKinds;
  }

  lemma Enlisting(cfg: Config)
    ensures var d := SetUp(cfg);
      && 1 in d.procs && d.procs[1] == Joining(cfg) && 1 in d.signups && d.signups[1].password.Some?
      && !AddressTaken(d, 1) && Enlist(cfg, d, 1, 0) == S7(cfg)
  {
  }

  lemma Complete(cfg: Config)
    ensures AfterSignUpStep(cfg, SetUp(cfg), 0, 1, 5, PasswordSetup).Ok?
    ensures AfterSignUpStep(cfg, SetUp(cfg), 0, 1, 5, PasswordSetup).value.db == S7(cfg)
  {
    hide Next, Enlist, AddressTaken, SetUp, S7;
    Enlisting(cfg);
    AllStagesDone(cfg);
  }

  // ---------- a session, and the first request ----------

  const SESSION := Session(7, Digest(RefreshTag, 0, 9), 2 * T)
  const POSTED := CODE_MAIL + [ProfileCreated(7), Mail("a", NewLogin, None)]

  function Spent(p: Process): Process {
    p.(grant := None)
  }

  function S8(cfg: Config): DB {
    World(map[7 := ME], map[10 := SESSION], map[1 := Spent(Joined(cfg))], JoinedSteps(cfg), map[], map[], POSTED, 11)
  }

  lemma Holder(procs: map<Id, Process>, n: nat, id: Id, hash: Digest)
    requires id in procs && HoldsGrant(procs[id], hash) && id < n
    requires forall p | p in procs && p != id :: !HoldsGrant(procs[p], hash)
    ensures ProcByGrant(procs, n, hash) == Some(id)
  {
  }

  lemma Step8(cfg: Config)
    requires Permissive(cfg)
    ensures Settle(S7(cfg), CreateSessionTx(S7(cfg), 0, 8, 2 * T)).db == S8(cfg)
  {
    var db := S7(cfg);
    Holder(db.procs, 9, 1, Digest(GrantTag, 0, 8));
    hide ProcByGrant, JoinedSteps;
    assert Spendable(Joined(cfg), SignUp, 0);
    assert db.procs[1 := Spent(Joined(cfg))] == map[1 := Spent(Joined(cfg))];
    assert ConsumeGrant(db, 0, 8, SignUp, Anonymous) == Ok(Processes.Spent(db.(procs := map[1 := Spent(Joined(cfg))]), 1, 7));
    hide ConsumeGrant;
  }

  function Asking(cfg: Config): Process {
    Process(EmailChanging, Pending, Some(7), Some(10), Digest(FlowTag, 0, 12), 0, cfg.flowTTL, None, None, None)
  }

  function S9(cfg: Config): DB {
    S8(cfg).(procs := map[1 := Spent(Joined(cfg)), 11 := Asking(cfg)], supply := 13)
  }

  lemma Step9(cfg: Config)
    requires Permissive(cfg)
    ensures Settle(S8(cfg), StartTx(cfg, S8(cfg), 0, "emailChange", WHO)).db == S9(cfg)
  {
    var db := S8(cfg);
    hide JoinedSteps;
    assert ParsePurpose("emailChange") == Ok(EmailChanging);
    assert Opened(cfg, db, 0, EmailChanging, WHO) == S9(cfg);
    assert !Reusable(S9(cfg), 7, 10, 0 - cfg.reuseTTL) by { hide FreshFirst, FreshSecond; }
    hide Reusable, DoneKinds, Opened, ParsePurpose;
  }

  function S10(cfg: Config): DB {
    S9(cfg).(steps := JoinedSteps(cfg)[13 := OpenAt(cfg, 11, Kind.Password)], supply := 14)
  }

  lemma NoStepsOf11(cfg: Config)
    ensures DoneKinds(JoinedSteps(cfg), 11) == {} && CancelPending(JoinedSteps(cfg), 11, Some(Kind.Password), None) == JoinedSteps(cfg)
    ensures 13 !in JoinedSteps(cfg)
  {
  }

  lemma LoadsAsking(cfg: Config, db: DB)
    requires Permissive(cfg) && 11 in db.procs && db.procs[11] == Asking(cfg) && 10 in db.sessions && db.sessions[10] == SESSION
    requires db.accounts == map[7 := ME] && db.deletions == map[]
    ensures Load(db, 0, 11, 12, WHO) == Ok(Asking(cfg))
  {
  }

  lemma OffersPassword(cfg: Config, db: DB)
    requires DoneKinds(db.steps, 11) == {}
    ensures Next(cfg, db, 11, Asking(cfg)).Ok? && Kind.Password in Next(cfg, db, 11, Asking(cfg)).value
  {
    assert FirstFactorMethods(cfg)[0] == Kind.Password;
    hide DoneKinds;
  }

  lemma Step10(cfg: Config)
    requires Permissive(cfg)
    ensures Settle(S9(cfg), CreateChallengeTx(cfg, S9(cfg), 0, 11, 12, Kind.Password, WHO, OPTIONS, 0, true)).db == S10(cfg)
  {
    hide Load, Next, CancelPending, DoneKinds, JoinedSteps;
    NoStepsOf11(cfg);
    LoadsAsking(cfg, S9(cfg));
    OffersPassword(cfg, S9(cfg));
  }

  function Asked(cfg: Config): Process {
    Asking(cfg).(status := Completed, completed := Some(0), grant := Some(Grant(Digest(GrantTag, 0, 14), cfg.grantTTL)))
  }

  function AskedSteps(cfg: Config): map<Id, Step> {
    JoinedSteps(cfg)[13 := Closed(OpenAt(cfg, 11, Kind.Password))]
  }

  function S11(cfg: Config): DB {
    World(map[7 := ME], map[10 := SESSION], map[1 := Spent(Joined(cfg)), 11 := Asked(cfg)], AskedSteps(cfg), map[], map[], POSTED, 15)
  }

  lemma AcceptPassword(cfg: Config)
    ensures AcceptStep(S10(cfg), 11, 13, 0) == S10(cfg).(steps := AskedSteps(cfg))
  {
    var before, after := S10(cfg).steps, AskedSteps(cfg);
    assert before[13 := Closed(before[13])] == after;
    assert CancelPending(after, 11, None, Some(13)) == after;
    hide CancelPending, AskedSteps, JoinedSteps;
  }

  lemma PasswordDone(cfg: Config)
    ensures DoneKinds(AskedSteps(cfg), 11) == {Kind.Password} && DoneKinds(S10(cfg).steps, 11) == {}
  {
    assert DoneStep(AskedSteps(cfg)[13], 11);
  }

  lemma Step11(cfg: Config)
    requires Permissive(cfg)
    ensures Settle(S10(cfg), AttemptTx(cfg, S10(cfg), 0, 11, 13, 12, WHO, PasswordProof("", PASSWORD))).db == S11(cfg)
  {
    hide Load, Next, AcceptStep, DoneKinds, JoinedSteps, AskedSteps, VerifyPassword, AfterFactor;
    var db := S10(cfg);
    AcceptPassword(cfg);
    PasswordDone(cfg);
    LoadsAsking(cfg, db);
    OffersPassword(cfg, db);
    PasswordAccepted(cfg);
    FactorDone(cfg);
  }

  lemma PasswordAccepted(cfg: Config)
    requires Permissive(cfg)
    ensures VerifyPassword(cfg, S10(cfg), 11, Asking(cfg), "", PASSWORD) == Ok(Proved(S10(cfg), Some(7)))
  {
    hide JoinedSteps;
    var db := S10(cfg);
    assert db.procs[11 := Asking(cfg)] == db.procs;
    assert PasswordFits(cfg, ME, PASSWORD);
  }

  lemma FactorDone(cfg: Config)
    requires DoneKinds(AskedSteps(cfg), 11) == {Kind.Password}
    ensures var r := AfterFactor(cfg, S10(cfg).(steps := AskedSteps(cfg)), 0, 11, 13); r.Ok? && r.value.db == S11(cfg)
  {
    hide DoneKinds, AskedSteps, JoinedSteps;
    var d := S10(cfg).(steps := AskedSteps(cfg));
    assert Next(cfg, d, 11, Asking(cfg)) == Ok([]);
    hide Next;
    assert d.procs[11 := Asked(cfg)] == S11(cfg).procs;
  }

  function Request(): EmailChangeRequest {
    EmailChangeRequest("a", "b", AwaitingPrevious, Digest(EmailChangeTag, 0, 15), LINK_TTL)
  }

  const REQUESTED := POSTED + [Mail("a", EmailChangePrevious, Some(15))]

  function S12(cfg: Config): DB {
    World(map[7 := ME], map[10 := SESSION], map[1 := Spent(Joined(cfg)), 11 := Spent(Asked(cfg))], AskedSteps(cfg), map[],
          map[7 := Request()], REQUESTED, 16)
  }

  lemma Step12(cfg: Config)
    requires Permissive(cfg)
    ensures Settle(S11(cfg), ChangeEmailTx(cfg, S11(cfg), 0, WHO, 14, "b", true)).db == S12(cfg)
  {
    hide ProcByGrant, AskedSteps;
    var db := S11(cfg);
    Holder(db.procs, 15, 11, Digest(GrantTag, 0, 14));
    assert Spendable(Asked(cfg), EmailChanging, 0);
    assert db.procs[11 := Spent(Asked(cfg))] == S12(cfg).procs;
    assert ConsumeGrant(db, 0, 14, EmailChanging, WHO) == Ok(Processes.Spent(db.(procs := S12(cfg).procs), 11, 7));
    hide ConsumeGrant;
  }

  // ---------- after the link has lapsed ----------

  function AskedAgain(cfg: Config): Process {
    Process(EmailChanging, Completed, Some(7), Some(10), Digest(FlowTag, 0, 17), 0, T + cfg.flowTTL, Some(T), None,
            Some(Grant(Digest(GrantTag, 0, 18), T + cfg.grantTTL)))
  }

  function S13(cfg: Config): DB {
    S12(cfg).(procs := map[1 := Spent(Joined(cfg)), 11 := Spent(Asked(cfg)), 16 := AskedAgain(cfg)], supply := 19)
  }

  lemma Step13(cfg: Config)
    requires Permissive(cfg)
    ensures Settle(S12(cfg), StartTx(cfg, S12(cfg), T, "emailChange", WHO)).db == S13(cfg)
  {
    hide AskedSteps, Reusable, DoneKinds;
    var db := S12(cfg);
    assert ParsePurpose("emailChange") == Ok(EmailChanging);
    hide ParsePurpose;
    var d := Opened(cfg, db, T, EmailChanging, WHO);
    ReusesTheProof(cfg, d);
    assert Finish(cfg, d, 16, 7, T).procs == S13(cfg).procs;
  }

  lemma ReusesTheProof(cfg: Config, d: DB)
    requires Permissive(cfg) && 11 in d.procs && d.procs[11] == Spent(Asked(cfg)) && d.steps == AskedSteps(cfg) && d.totp == map[]
    ensures Reusable(d, 7, 10, T - cfg.reuseTTL)
  {
    assert 13 in d.steps && DoneStep(d.steps[13], 11);
    assert Evidence(d, 11, 7, 10, T - cfg.reuseTTL);
  }

  // ---------- the run ----------

  /** A sign-up, a session, a confirmed request that is never followed up, and a second confirmation after its link lapsed. */
  function History(): seq<Call> {
    [
      Call(0, Start("signUp", Anonymous)),
      Call(0, CreateChallenge(1, 2, Registration, Anonymous, OPTIONS, 0, true)),
      Call(0, Attempt(1, 3, 2, Anonymous, RegistrationProof("a"))),
      Call(0, CreateChallenge(1, 2, Email, Anonymous, OPTIONS, 7, true)),
      Call(0, Attempt(1, 4, 2, Anonymous, EmailProof(7))),
      Call(0, CreateChallenge(1, 2, PasswordSetup, Anonymous, OPTIONS, 0, true)),
      Call(0, Attempt(1, 5, 2, Anonymous, SetupProof(PASSWORD))),
      Call(0, CreateSession(8, 2 * T)),
      Call(0, Start("emailChange", WHO)),
      Call(0, CreateChallenge(11, 12, Kind.Password, WHO, OPTIONS, 0, true)),
      Call(0, Attempt(11, 13, 12, WHO, PasswordProof("", PASSWORD))),
      Call(0, ChangeEmail(WHO, 14, "b", true)),
      Call(T, Start("emailChange", WHO))
    ]
  }

  /** The first k calls of the run lead to the state. */
  ghost predicate Leads(cfg: Config, run: seq<Call>, k: nat, a: DB) {
    k <= |run| && After(cfg, run[..k]) == a
  }

  /** What the calls of the run do. */
  function Does(cfg: Config, db: DB, call: Call): Outcome {
    match call.action
    case Start(name, who) => StartTx(cfg, db, call.now, name, who)
    case CreateChallenge(id, flow, kind, who, options, code, libraryOk) =>
      CreateChallengeTx(cfg, db, call.now, id, flow, kind, who, options, code, libraryOk)
    case Attempt(id, cid, flow, who, proof) => AttemptTx(cfg, db, call.now, id, cid, flow, who, proof)
    case CreateSession(grant, ttl) => CreateSessionTx(db, call.now, grant, ttl)
    case ChangeEmail(who, grant, email, baseOk) => ChangeEmailTx(cfg, db, call.now, who, grant, email, baseOk)
    case _ => Err(Internal)
  }

  lemma DoesIt(cfg: Config, db: DB, call: Call)
    requires call.action.Start? || call.action.CreateChallenge? || call.action.Attempt? || call.action.CreateSession? || call.action.ChangeEmail?
    ensures Apply(cfg, db, call) == Settle(db, Does(cfg, db, call))
  {
    hide StartTx, CreateChallengeTx, AttemptTx, CreateSessionTx, ChangeEmailTx, Settle;
  }

  lemma Goes(cfg: Config, run: seq<Call>, k: nat, a: DB, b: DB)
    requires k < |run| && Leads(cfg, run, k, a) && Settle(a, Does(cfg, a, run[k])).db == b
    requires var c := run[k].action; c.Start? || c.CreateChallenge? || c.Attempt? || c.CreateSession? || c.ChangeEmail?
    ensures Leads(cfg, run, k + 1, b)
  {
    hide Transact, Does;
    DoesIt(cfg, a, run[k]);
    assert run[..k + 1][..k] == run[..k];
  }

  lemma ProvesItsAddress(cfg: Config)
    requires Permissive(cfg)
    ensures Leads(cfg, History(), 4, S4(cfg))
  {
    hide Leads, Permissive, StartTx, CreateChallengeTx, AttemptTx, CreateSessionTx, ChangeEmailTx, Settle, S1, S2, S3, S4;
    var run := History();
    NothingYet(cfg, run);
    Step1(cfg);
    Goes(cfg, run, 0, EMPTY, S1(cfg));
    Step2(cfg);
    Goes(cfg, run, 1, S1(cfg), S2(cfg));
    Step3(cfg);
    Goes(cfg, run, 2, S2(cfg), S3(cfg));
    Step4(cfg);
    Goes(cfg, run, 3, S3(cfg), S4(cfg));
  }

  lemma SignsUp(cfg: Config)
    requires Permissive(cfg)
    ensures Leads(cfg, History(), 8, S8(cfg))
  {
    hide Leads, Permissive, StartTx, CreateChallengeTx, AttemptTx, CreateSessionTx, ChangeEmailTx, Settle, S4, S5, S6, S7, S8;
    var run := History();
    ProvesItsAddress(cfg);
    Step5(cfg);
    Goes(cfg, run, 4, S4(cfg), S5(cfg));
    Step6(cfg);
    Goes(cfg, run, 5, S5(cfg), S6(cfg));
    Step7(cfg);
    Goes(cfg, run, 6, S6(cfg), S7(cfg));
    Step8(cfg);
    Goes(cfg, run, 7, S7(cfg), S8(cfg));
  }

  lemma AsksTwice(cfg: Config)
    requires Permissive(cfg)
    ensures Leads(cfg, History(), 13, S13(cfg))
  {
    hide Leads, Permissive, StartTx, CreateChallengeTx, AttemptTx, CreateSessionTx, ChangeEmailTx, Settle, S8, S9, S10, S11, S12, S13;
    var run := History();
    SignsUp(cfg);
    Step9(cfg);
    Goes(cfg, run, 8, S8(cfg), S9(cfg));
    Step10(cfg);
    Goes(cfg, run, 9, S9(cfg), S10(cfg));
    Step11(cfg);
    Goes(cfg, run, 10, S10(cfg), S11(cfg));
    Step12(cfg);
    Goes(cfg, run, 11, S11(cfg), S12(cfg));
    Step13(cfg);
    Goes(cfg, run, 12, S12(cfg), S13(cfg));
  }

  /** The service gets there. */
  lemma HistoryHappens(cfg: Config)
    requires Permissive(cfg)
    ensures After(cfg, History()) == S13(cfg)
  {
    hide After, S13, Permissive;
    AsksTwice(cfg);
    assert History()[..13] == History();
  }

  lemma NothingYet(cfg: Config, run: seq<Call>)
    ensures Leads(cfg, run, 0, EMPTY)
  {
    hide Apply;
  }

  // ---------- the difference ----------

  const AGAIN := Call(T, ChangeEmail(WHO, 18, "c", true))

  lemma InOrder(cfg: Config)
    requires Permissive(cfg)
    ensures Lapsed(S13(cfg), AGAIN, T) && MayChangeEmail(cfg, S13(cfg), AGAIN)
  {
    hide ProcByGrant, AskedSteps;
    var db := S13(cfg);
    Holder(db.procs, 19, 16, Digest(GrantTag, 0, 18));
    assert Spendable(AskedAgain(cfg), EmailChanging, T);
  }

  lemma HistoryIsOrdered()
    ensures Ordered(History(), T)
  {
  }

  /** After this run the second request is refused if the garbage is still there, and goes through if it was collected. */
  lemma CleaningUpMakesADifference(cfg: Config)
    requires Permissive(cfg)
    ensures Ordered(History(), T)
    ensures var a := After(cfg, History());
      var b := Apply(cfg, a, Call(T, Cleanup)).db;
      Decision(cfg, a, AGAIN) == None && Decision(cfg, b, AGAIN).Some?
  {
    hide History, After, Apply, Permissive, Decision, MayChangeEmail, S13;
    HistoryIsOrdered();
    HistoryHappens(cfg);
    InOrder(cfg);
    NoCallsYet(cfg, History());
    FirstDifference(cfg, History(), T, [], AGAIN);
    DecisionOnEmail(cfg, After(cfg, History()), AGAIN);
  }

  lemma NoCallsYet(cfg: Config, run: seq<Call>)
    ensures var a := After(cfg, run);
      var b := Apply(cfg, a, Call(T, Cleanup)).db;
      RunFrom(cfg, a, []) == a && RunFrom(cfg, b, []) == b && NeverMeets(cfg, a, [], T) && Follows(T, [], T)
  {
    hide Apply, MeetsLapsed;
  }

  // There are such services.
  lemma SomeServiceIsPermissive()
    ensures exists cfg :: Permissive(cfg)
  {
    var mac: Mac := (_: Id, _: Bytes) => seq(20, _ => 0);
    var cfg := Config(1, 1, 1, T + 1, 10, false, false, false, true, {}, [], mac,
                      (h: PasswordHash, p: Store.Password) => h.password == p, (e: string) => e, (_: string) => true);
    assert Permissive(cfg);
  }
}
