/** One-time codes over whole runs: moving factors only advance, and each backup code passes once. */
module CodeUse {
  import opened Base
  import opened Secrets
  import opened Store
  import opened Answers
  import opened Processes
  import opened Challenges
  import opened Accounts
  import opened Totps
  import opened Protocol
  import opened Invariant
  import opened Frames
  import opened Attempts
  import opened KeyActions
  import opened Reachability

  // ---------- what an accepted code does ----------

  /** The attempt was accepted, not rejected. */
  predicate Accepts(r: Outcome) {
    r.Ok? && r.value.answer.Attempted?
  }

  lemma AcceptedIsProved(cfg: Config, db: DB, now: Time, id: Id, cid: Id, verdict: Result<Proved>)
    requires id in db.procs && cid in db.steps && Usable(db, id, verdict) && Accepts(Judge(cfg, db, now, id, cid, verdict))
    ensures verdict.Ok?
    ensures Judge(cfg, db, now, id, cid, verdict).value.db.totp == verdict.value.db.totp
    ensures Judge(cfg, db, now, id, cid, verdict).value.db.backups == verdict.value.db.backups
  {
    hide Proceed, CountFailure;
    if verdict.Ok? {
      ProceedKeepsFactors(cfg, verdict.value.db, now, id, cid, db.procs[id].purpose, db.steps[cid].kind);
    }
  }

  /** An accepted code belongs to a factor of the window that is later than every one used before. */
  lemma AcceptedCodeAdvances(cfg: Config, db: DB, now: Time, id: Id, cid: Id, flow: Id, who: Principal, digits: string)
    requires Accepts(AttemptTx(cfg, db, now, id, cid, flow, who, TotpProof(digits)))
    ensures id in db.procs && db.procs[id].account.Some? && db.procs[id].account.value in db.totp
    ensures var x, b := db.procs[id].account.value, AttemptTx(cfg, db, now, id, cid, flow, who, TotpProof(digits)).value.db;
      && x in b.totp && b.totp[x].key == db.totp[x].key
      && InWindow(b.totp[x].last, now) && Matches(cfg.mac, db.totp[x].key, digits, db.totp[x].last, b.totp[x].last)
  {
    hide AttemptTx, Judge, TotpStep, InWindow, Matches, Next;
    AttemptAdmits(cfg, db, now, id, cid, flow, who, TotpProof(digits));
    var p, step := db.procs[id], db.steps[cid];
    AcceptedIsProved(cfg, db, now, id, cid, Verify(cfg, db, now, id, p, cid, step, TotpProof(digits)));
    var x := p.account.value;
    TotpStepExact(cfg.mac, db.totp[x].key, digits, now, db.totp[x].last);
  }

  lemma AcceptedBackupIsSpent(cfg: Config, db: DB, now: Time, id: Id, cid: Id, flow: Id, who: Principal, code: Id)
    requires Accepts(AttemptTx(cfg, db, now, id, cid, flow, who, BackupProof(code)))
    ensures id in db.procs && db.procs[id].account.Some?
    ensures var x, b := db.procs[id].account.value, AttemptTx(cfg, db, now, id, cid, flow, who, BackupProof(code)).value.db;
      var key := BackupKey(x, Digest(BackupTag, x, code));
      key in db.backups && b.backups == db.backups - {key}
  {
    hide AttemptTx, Judge, Next;
    AttemptAdmits(cfg, db, now, id, cid, flow, who, BackupProof(code));
    AcceptedIsProved(cfg, db, now, id, cid, Verify(cfg, db, now, id, db.procs[id], cid, db.steps[cid], BackupProof(code)));
  }

  // ---------- moving factors over runs ----------

  /** Who stays enrolled keeps the key, and the last factor does not go back. */
  ghost predicate FactorsAdvance(a: map<Id, TotpFactor>, b: map<Id, TotpFactor>) {
    forall x | x in a && x in b :: b[x].key == a[x].key && b[x].last >= a[x].last
  }

  lemma ConfirmAdvances(cfg: Config, db: DB, now: Time, who: Principal, digits: string)
    ensures FactorsAdvance(db.totp, Settle(db, ConfirmTotpTx(cfg, db, now, who, digits)).db.totp)
  {
    hide TotpStep, DropSessions, ReplaceBackupCodes, Invalidate;
    if ConfirmTotpTx(cfg, db, now, who, digits).Ok? {
      var a := who.account;
      var key := db.activations[a].key;
      var used := TotpStep(cfg.mac, key, digits, now, -1);
      var c := db.(totp := db.totp[a := TotpFactor(key, used.value)], activations := db.activations - {a});
      var d := Invalidate(c, a, now);
      EnrolmentKept(c, a, now, SessionsOf(d, a) - {who.session});
      ReplacedCodesOnly(DropSessions(d, SessionsOf(d, a) - {who.session}), a);
    }
  }

  lemma RemovalAdvances(db: DB, now: Time, who: Principal, grant: Id)
    ensures FactorsAdvance(db.totp, Settle(db, DeleteTotpTx(db, now, who, grant)).db.totp)
  {
    hide ConsumeGrant, HoldsGrant, Spendable, InvalidateRow;
  }

  lemma EveryActionAdvances(cfg: Config, db: DB, call: Call)
    ensures FactorsAdvance(db.totp, Apply(cfg, db, call).db.totp)
  {
    hide *;
    Dispatched(cfg, db, call);
    OthersAdvance(cfg, db, call);
    match call.action
    case Attempt(id, cid, flow, who, proof) => AttemptSpends(cfg, db, call.now, id, cid, flow, who, proof);
    case ConfirmTotp(who, digits) => ConfirmAdvances(cfg, db, call.now, who, digits);
    case DeleteTotp(who, grant) => RemovalAdvances(db, call.now, who, grant);
    case DeleteDue => DeleteDueDrops(db, call.now);
    case _ =>
  }

  lemma OthersAdvance(cfg: Config, db: DB, call: Call)
    ensures var a, b := call.action, Apply(cfg, db, call).db;
      (!a.Attempt? && !a.ConfirmTotp? && !a.DeleteTotp? && !a.DeleteDue?) || FactorsSpent(db, b) || Within(b.totp, db.totp)
      ==> FactorsAdvance(db.totp, b.totp)
  {
    hide Apply;
    EveryActionFramed(cfg, db, call);
  }

  /** The account is enrolled in every state of the run. */
  ghost predicate EnrolledThroughout(cfg: Config, db: DB, run: seq<Call>, x: Id) {
    forall k | 0 <= k <= |run| :: x in RunFrom(cfg, db, run[..k]).totp
  }

  lemma {:induction false} RunAdvances(cfg: Config, db: DB, run: seq<Call>, x: Id)
    requires EnrolledThroughout(cfg, db, run, x)
    ensures x in db.totp && x in RunFrom(cfg, db, run).totp
    ensures RunFrom(cfg, db, run).totp[x].key == db.totp[x].key && RunFrom(cfg, db, run).totp[x].last >= db.totp[x].last
    decreases |run|
  {
    hide Apply;
    assert run[..|run|] == run;
    assert x in RunFrom(cfg, db, run[..0]).totp;
    if run != [] {
      var m := run[..|run| - 1];
      assert forall k | 0 <= k <= |m| :: m[..k] == run[..k];
      RunAdvances(cfg, db, m, x);
      EveryActionAdvances(cfg, RunFrom(cfg, db, m), run[|run| - 1]);
    }
  }

  /** The call is an accepted time-based code for the account. */
  ghost predicate PassesTotp(cfg: Config, db: DB, call: Call, x: Id) {
    && call.action.Attempt? && call.action.proof.TotpProof? && call.action.id in db.procs && db.procs[call.action.id].account == Some(x)
    && Accepts(AttemptTx(cfg, db, call.now, call.action.id, call.action.cid, call.action.flow, call.action.who, call.action.proof))
  }

  lemma PassAdvances(cfg: Config, db: DB, call: Call, x: Id)
    requires PassesTotp(cfg, db, call, x)
    ensures x in db.totp && x in Apply(cfg, db, call).db.totp
    ensures var f := Apply(cfg, db, call).db.totp[x].last; f > db.totp[x].last && CodeAt(cfg.mac, db.totp[x].key, f) == call.action.proof.digits
  {
    hide AttemptTx, InWindow, CodeAt;
    AcceptedCodeAdvances(cfg, db, call.now, call.action.id, call.action.cid, call.action.flow, call.action.who, call.action.proof.digits);
  }

  /** The call enrols the account with a code. */
  ghost predicate EnrolsTotp(cfg: Config, db: DB, call: Call, x: Id) {
    && call.action.ConfirmTotp? && call.action.who.Bearer? && call.action.who.account == x
    && ConfirmTotpTx(cfg, db, call.now, call.action.who, call.action.digits).Ok?
  }

  // The first factor of an enrolment is the one of its own code.
  lemma EnrolmentUses(cfg: Config, db: DB, now: Time, who: Principal, digits: string)
    requires ConfirmTotpTx(cfg, db, now, who, digits).Ok?
    ensures who.Bearer?
    ensures var b := ConfirmTotpTx(cfg, db, now, who, digits).value.db;
      who.account in b.totp && CodeAt(cfg.mac, b.totp[who.account].key, b.totp[who.account].last) == digits
  {
    hide TotpStep, DropSessions, ReplaceBackupCodes, Invalidate, CodeAt, InWindow;
    var a := who.account;
    var key := db.activations[a].key;
    TotpStepExact(cfg.mac, key, digits, now, -1);
    var used := TotpStep(cfg.mac, key, digits, now, -1);
    var c := db.(totp := db.totp[a := TotpFactor(key, used.value)], activations := db.activations - {a});
    var d := Invalidate(c, a, now);
    EnrolmentKept(c, a, now, SessionsOf(d, a) - {who.session});
    ReplacedCodesOnly(DropSessions(d, SessionsOf(d, a) - {who.session}), a);
  }

  lemma EnrolmentCalled(cfg: Config, db: DB, call: Call, x: Id)
    requires EnrolsTotp(cfg, db, call, x)
    ensures var b := Apply(cfg, db, call).db; x in b.totp && CodeAt(cfg.mac, b.totp[x].key, b.totp[x].last) == call.action.digits
  {
    hide ConfirmTotpTx, CodeAt;
    EnrolmentUses(cfg, db, call.now, call.action.who, call.action.digits);
  }

  /** The code that the call presents. */
  function DigitsOf(a: Action): string {
    match a
    case ConfirmTotp(_, digits) => digits
    case Attempt(_, _, _, _, TotpProof(digits)) => digits
    case _ => ""
  }

  /** Within one enrolment, from its own code on, the moving factors of accepted codes strictly increase. */
  lemma FactorsStrictlyIncrease(cfg: Config, run: seq<Call>, now: Time, i: nat, j: nat, x: Id)
    requires Ordered(run, now) && i < j < |run|
    requires PassesTotp(cfg, After(cfg, run[..i]), run[i], x) || EnrolsTotp(cfg, After(cfg, run[..i]), run[i], x)
    requires PassesTotp(cfg, After(cfg, run[..j]), run[j], x)
    requires EnrolledThroughout(cfg, After(cfg, run[..i + 1]), run[i + 1..j], x)
    ensures var b, d := After(cfg, run[..i + 1]), Apply(cfg, After(cfg, run[..j]), run[j]).db;
      && x in b.totp && x in d.totp && d.totp[x].last > b.totp[x].last && d.totp[x].key == b.totp[x].key
      && CodeAt(cfg.mac, b.totp[x].key, b.totp[x].last) == DigitsOf(run[i].action)
      && CodeAt(cfg.mac, b.totp[x].key, d.totp[x].last) == DigitsOf(run[j].action)
  {
    hide Inv, Apply, After, PassesTotp, EnrolsTotp, CodeAt, EnrolledThroughout, DigitsOf;
    RunBetween(cfg, run, now, i, j);
    CodeUsed(cfg, After(cfg, run[..i]), run[i], x);
    CodeUsed(cfg, After(cfg, run[..j]), run[j], x);
    RunAdvances(cfg, After(cfg, run[..i + 1]), run[i + 1..j], x);
    PassAdvances(cfg, After(cfg, run[..j]), run[j], x);
    EveryActionAdvances(cfg, After(cfg, run[..j]), run[j]);
  }

  lemma CodeUsed(cfg: Config, db: DB, call: Call, x: Id)
    requires PassesTotp(cfg, db, call, x) || EnrolsTotp(cfg, db, call, x)
    ensures var b := Apply(cfg, db, call).db; x in b.totp && CodeAt(cfg.mac, b.totp[x].key, b.totp[x].last) == DigitsOf(call.action)
  {
    hide Apply, CodeAt, ConfirmTotpTx, AttemptTx, Accepts;
    if PassesTotp(cfg, db, call, x) {
      PassAdvances(cfg, db, call, x);
      EveryActionAdvances(cfg, db, call);
    } else {
      EnrolmentCalled(cfg, db, call, x);
    }
  }

  // ---------- backup codes over runs ----------

  /** The code was drawn, and nobody holds it. */
  ghost predicate BackupDead(db: DB, key: BackupKey) {
    key !in db.backups && key.hash.value < db.supply
  }

  ghost predicate BackupsDrawn(a: DB, b: DB) {
    a.supply <= b.supply && forall k | k in b.backups :: k in a.backups || k.hash.value >= a.supply
  }

  lemma ReplacedDraws(db: DB, account: Id)
    ensures var b := ReplaceBackupCodes(db, account).db; forall k | k in b.backups :: k in db.backups || k.hash.value >= db.supply
  {
  }

  lemma ConfirmDraws(cfg: Config, db: DB, now: Time, who: Principal, digits: string)
    ensures BackupsDrawn(db, Settle(db, ConfirmTotpTx(cfg, db, now, who, digits)).db)
  {
    hide TotpStep, DropSessions, ReplaceBackupCodes, Invalidate;
    if ConfirmTotpTx(cfg, db, now, who, digits).Ok? {
      var a := who.account;
      var key := db.activations[a].key;
      var used := TotpStep(cfg.mac, key, digits, now, -1);
      var c := db.(totp := db.totp[a := TotpFactor(key, used.value)], activations := db.activations - {a});
      var d := Invalidate(c, a, now);
      var e := DropSessions(d, SessionsOf(d, a) - {who.session});
      EnrolmentKept(c, a, now, SessionsOf(d, a) - {who.session});
      ReplacedCodesOnly(e, a);
      ReplacedDraws(e, a);
    }
  }

  lemma RotateDraws(db: DB, now: Time, who: Principal, grant: Id)
    ensures BackupsDrawn(db, Settle(db, RotateBackupCodesTx(db, now, who, grant)).db)
  {
    hide ConsumeGrant, HoldsGrant, Spendable, ReplaceBackupCodes;
    if RotateBackupCodesTx(db, now, who, grant).Ok? {
      var s := ConsumeGrant(db, now, grant, BackupCodesRotation, who).value;
      ReplacedCodesOnly(s.db, s.account);
      ReplacedDraws(s.db, s.account);
    }
  }

  lemma SpentDraws(action: Action, a: DB, b: DB)
    requires Framed(action, a, b) && (FactorsSpent(a, b) || b.backups <= a.backups || !WritesBackups(action))
    ensures BackupsDrawn(a, b)
  {
  }

  lemma EveryActionDraws(cfg: Config, db: DB, call: Call)
    ensures BackupsDrawn(db, Apply(cfg, db, call).db)
  {
    var b := Apply(cfg, db, call).db;
    hide AttemptTx, ConfirmTotpTx, RotateBackupCodesTx, DeleteDueTx, Framed, FactorsSpent, BackupsDrawn;
    if call.action.ConfirmTotp? {
      ConfirmDraws(cfg, db, call.now, call.action.who, call.action.digits);
    } else if call.action.RotateBackupCodes? {
      RotateDraws(db, call.now, call.action.who, call.action.grant);
    } else {
      EveryActionFramed(cfg, db, call);
      if call.action.Attempt? {
        var Attempt(id, cid, flow, who, proof) := call.action;
        AttemptSpends(cfg, db, call.now, id, cid, flow, who, proof);
      } else if call.action.DeleteDue? {
        DeleteDueDrops(db, call.now);
      } else {
        hide Transact;
      }
      SpentDraws(call.action, db, b);
    }
  }

  lemma {:induction false} DeadBackupOverRun(cfg: Config, db: DB, run: seq<Call>, key: BackupKey)
    requires BackupDead(db, key)
    ensures BackupDead(RunFrom(cfg, db, run), key)
    decreases |run|
  {
    hide Apply;
    if run != [] {
      var n := |run| - 1;
      DeadBackupOverRun(cfg, db, run[..n], key);
      EveryActionDraws(cfg, RunFrom(cfg, db, run[..n]), run[n]);
    }
  }

  /** The call is an accepted backup code. */
  ghost predicate PassesBackup(cfg: Config, db: DB, call: Call, key: BackupKey) {
    && call.action.Attempt? && call.action.proof.BackupProof? && call.action.id in db.procs
    && db.procs[call.action.id].account == Some(key.account) && key.hash == Digest(BackupTag, key.account, call.action.proof.code)
    && Accepts(AttemptTx(cfg, db, call.now, call.action.id, call.action.cid, call.action.flow, call.action.who, call.action.proof))
  }

  lemma PassSpends(cfg: Config, db: DB, clock: Time, call: Call, key: BackupKey)
    requires Inv(cfg, db, clock) && PassesBackup(cfg, db, call, key)
    ensures key in db.backups && BackupDead(Apply(cfg, db, call).db, key)
  {
    hide AttemptTx, Core, Framed;
    AcceptedBackupIsSpent(cfg, db, call.now, call.action.id, call.action.cid, call.action.flow, call.action.who, call.action.proof.code);
    EveryActionFramed(cfg, db, call);
    GrownSupply(call.action, db, Apply(cfg, db, call).db);
    assert key.hash.value < db.supply;
    hide Keys;
  }

  lemma GrownSupply(action: Action, a: DB, b: DB)
    requires Framed(action, a, b)
    ensures a.supply <= b.supply
  {
  }

  /** Over any run each backup code is accepted at most once. */
  lemma BackupCodeUsedOnce(cfg: Config, run: seq<Call>, now: Time, i: nat, j: nat, key: BackupKey)
    requires Ordered(run, now) && i < j < |run| && PassesBackup(cfg, After(cfg, run[..i]), run[i], key)
    ensures !PassesBackup(cfg, After(cfg, run[..j]), run[j], key)
  {
    hide Inv, Apply, After, PassesBackup;
    RunBetween(cfg, run, now, i, j);
    PassSpends(cfg, After(cfg, run[..i]), run[i].now, run[i], key);
    DeadBackupOverRun(cfg, After(cfg, run[..i + 1]), run[i + 1..j], key);
    if PassesBackup(cfg, After(cfg, run[..j]), run[j], key) {
      PassSpends(cfg, After(cfg, run[..j]), run[j].now, run[j], key);
    }
  }
}
