/** Sessions are paid for: over every run no more are created than sign-ins and sign-ups are completed. */
module SessionCount {
  import opened Base
  import opened Store
  import opened Answers
  import opened Processes
  import opened Sessions
  import opened Protocol
  import opened Invariant
  import opened Frames
  import opened KeyActions
  import opened Reachability
  import opened Evolution
  import opened Grants

  /** Sign-ins and sign-ups that still hold their grant. */
  function Outstanding(db: DB): set<Id> {
    set p | p in db.procs && !Sensitive(db.procs[p].purpose) && db.procs[p].grant.Some?
  }

  /** Sign-ins and sign-ups that complete between two states. */
  function Completing(a: DB, b: DB): set<Id> {
    set p | p in b.procs && !Sensitive(b.procs[p].purpose) && b.procs[p].status == Completed && (p in a.procs ==> a.procs[p].status != Completed)
  }

  /** Sessions that come into being between two states. */
  function Created(a: DB, b: DB): set<Id> {
    b.sessions.Keys - a.sessions.Keys
  }

  /** Sessions created over a run. */
  ghost function SessionsCreated(cfg: Config, run: seq<Call>): nat {
    if run == [] then 0
    else SessionsCreated(cfg, run[..|run| - 1]) + |Created(After(cfg, run[..|run| - 1]), After(cfg, run))|
  }

  /** Sign-ins and sign-ups completed over a run. */
  ghost function SignInsCompleted(cfg: Config, run: seq<Call>): nat {
    if run == [] then 0
    else SignInsCompleted(cfg, run[..|run| - 1]) + |Completing(After(cfg, run[..|run| - 1]), After(cfg, run))|
  }

  // ---------- who creates sessions ----------

  lemma CreateSessionAddsOne(db: DB, now: Time, grant: Id, ttl: int)
    requires CreateSessionTx(db, now, grant, ttl).Ok?
    ensures Created(db, CreateSessionTx(db, now, grant, ttl).value.db) <= {db.supply + 1}
  {
    hide ConsumeGrant, ProcByGrant;
  }

  lemma RefreshAddsNone(db: DB, now: Time, id: Id, refresh: Id, ttl: int)
    ensures Created(db, Settle(db, RefreshTx(db, now, id, refresh, ttl)).db) == {}
  {
  }

  lemma OthersCreateNone(cfg: Config, db: DB, call: Call)
    requires !call.action.CreateSession? && !call.action.Refresh?
    ensures Created(db, Apply(cfg, db, call).db) == {}
  {
    hide Apply;
    EveryActionFramed(cfg, db, call);
    if Drops(call.action) {
      DropsShrink(cfg, db, call);
    }
  }

  lemma OnlyCreateSessionCreates(cfg: Config, db: DB, call: Call)
    ensures var made := Created(db, Apply(cfg, db, call).db);
      if call.action.CreateSession? && Transact(cfg, db, call.now, call.action).Ok? then |made| <= 1 else made == {}
  {
    hide *;
    Dispatched(cfg, db, call);
    match call.action
    case CreateSession(grant, ttl) => CreateSessionCreates(cfg, db, call, grant, ttl);
    case Refresh(session, refresh, ttl) => RefreshAddsNone(db, call.now, session, refresh, ttl);
    case _ => OthersCreateNone(cfg, db, call);
  }

  lemma CreateSessionCreates(cfg: Config, db: DB, call: Call, grant: Id, ttl: int)
    requires call.action == CreateSession(grant, ttl)
    ensures var made := Created(db, Apply(cfg, db, call).db);
      if Transact(cfg, db, call.now, call.action).Ok? then |made| <= 1 else made == {}
  {
    hide CreateSessionTx, Created;
    NothingCreated(db);
    if CreateSessionTx(db, call.now, grant, ttl).Ok? {
      CreateSessionAddsOne(db, call.now, grant, ttl);
      SubsetIsSmaller(Created(db, CreateSessionTx(db, call.now, grant, ttl).value.db), {db.supply + 1});
    }
  }

  lemma NothingCreated(db: DB)
    ensures Created(db, db) == {}
  {
  }

  // ---------- one call ----------

  // A grant outstanding after the call was outstanding before, or its process completed now.
  lemma GrantsComeFromCompletion(cfg: Config, a: DB, b: DB, clock: Time)
    requires Evolved(a, b) && ProcsOk(cfg, b.procs, clock)
    ensures Outstanding(b) <= Outstanding(a) + Completing(a, b)
  {
    hide StepsEvolve;
    forall p | p in Outstanding(b)
      ensures p in Outstanding(a) + Completing(a, b)
    {
      assert ProcOk(cfg, b.procs[p], clock);
    }
  }

  lemma CreationSpends(cfg: Config, db: DB, clock: Time, call: Call)
    requires Inv(cfg, db, clock) && call.action.CreateSession? && Transact(cfg, db, call.now, call.action).Ok?
    ensures exists p :: p in db.procs && p in Outstanding(db) && p !in Outstanding(Apply(cfg, db, call).db) && db.procs[p].status == Completed
  {
    hide Inv, Transact, Apply, SpentProcess, PurposePrincipal;
    SessionSpends(cfg, db, call);
    SpendingIsBound(cfg, db, call, call.action.grant);
    SpentRowIsCleared(cfg, db, clock, call, call.action.grant);
    var p := SpentProcess(db, call.now, call).value;
    SpentIsSignIn(cfg, db, call, p);
  }

  lemma SessionSpends(cfg: Config, db: DB, call: Call)
    requires call.action.CreateSession? && Transact(cfg, db, call.now, call.action).Ok?
    ensures Spends(cfg, db, call, call.action.grant) && OrderOf(db, call.action).Some? && !Sensitive(OrderOf(db, call.action).value.purpose)
  {
    hide Transact;
    SessionOrder(cfg, db, call);
    hide Transact;
  }

  lemma SpentIsSignIn(cfg: Config, db: DB, call: Call, p: Id)
    requires SpentProcess(db, call.now, call) == Some(p) && OrderOf(db, call.action).Some? && !Sensitive(OrderOf(db, call.action).value.purpose)
    ensures p in Outstanding(db) && db.procs[p].status == Completed
  {
    hide PurposePrincipal, OrderOf;
  }

  lemma CallPays(cfg: Config, db: DB, clock: Time, call: Call)
    requires Inv(cfg, db, clock) && clock <= call.now
    ensures var b := Apply(cfg, db, call).db;
      |Outstanding(b)| + |Created(db, b)| <= |Outstanding(db)| + |Completing(db, b)|
  {
    hide Inv, Apply, Transact, Outstanding, Completing, Created, Evolved, ProcsOk;
    var b := Apply(cfg, db, call).db;
    InvKept(cfg, db, clock, call);
    InvEvolves(cfg, db, clock, call);
    InvProcs(cfg, b, call.now);
    GrantsComeFromCompletion(cfg, db, b, call.now);
    OnlyCreateSessionCreates(cfg, db, call);
    if call.action.CreateSession? && Transact(cfg, db, call.now, call.action).Ok? {
      CreationSpends(cfg, db, clock, call);
      var p :| p in db.procs && p in Outstanding(db) && p !in Outstanding(b) && db.procs[p].status == Completed;
      SettledNotCompleting(db, b, p);
      SubsetIsSmaller(Outstanding(b) + {p}, Outstanding(db) + Completing(db, b));
    } else {
      SubsetIsSmaller(Outstanding(b), Outstanding(db) + Completing(db, b));
    }
  }

  lemma SettledNotCompleting(a: DB, b: DB, p: Id)
    requires p in a.procs && a.procs[p].status == Completed
    ensures p !in Completing(a, b)
  {
  }

  lemma InvProcs(cfg: Config, db: DB, clock: Time)
    requires Inv(cfg, db, clock)
    ensures ProcsOk(cfg, db.procs, clock)
  {
    hide ProcsOk, StepsOk, OneEach, Budget, Stages, Keys;
  }

  // ---------- over runs ----------

  /** Sessions created, with the grants still outstanding, never exceed the sign-ins and sign-ups completed. */
  lemma {:induction false} SessionsArePaid(cfg: Config, run: seq<Call>, now: Time)
    requires Ordered(run, now)
    ensures SessionsCreated(cfg, run) + |Outstanding(After(cfg, run))| <= SignInsCompleted(cfg, run)
  {
    hide Apply, Inv, Outstanding, Created, Completing;
    if run == [] {
      NoneOutstanding();
    } else {
      var n := |run| - 1;
      OrderedPrefix(run, now, n);
      SessionsArePaid(cfg, run[..n], run[n].now);
      Reachable(cfg, run[..n], run[n].now);
      CallPays(cfg, After(cfg, run[..n]), run[n].now, run[n]);
    }
  }

  lemma NoneOutstanding()
    ensures Outstanding(EMPTY) == {}
  {
  }
}
