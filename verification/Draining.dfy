/** The loop of runDeletions from any reachable state: it ends, and leaves no account that is due. */
module Draining {
  import opened Base
  import opened Store
  import opened Accounts
  import opened Answers
  import opened Protocol
  import opened Invariant
  import opened Reachability
  import opened References
  import opened Service

  /** What the loop relies on: accounts have drawn numbers, and a deletion belongs to an account. */
  ghost predicate Drainable(db: DB) {
    (forall x | x in db.accounts :: x < db.supply) && forall x | x in db.deletions :: x in db.accounts
  }

  lemma ReachableIsDrainable(cfg: Config, run: seq<Call>, now: Time)
    requires Ordered(run, now)
    ensures Drainable(After(cfg, run))
  {
    hide After, Inv, Refs;
    Reachable(cfg, run, now);
    ReferencesHold(cfg, run, now);
    InvAndRefsDrain(cfg, After(cfg, run), now);
  }

  lemma InvAndRefsDrain(cfg: Config, db: DB, now: Time)
    requires Inv(cfg, db, now) && Refs(db)
    ensures Drainable(db)
  {
    hide Core;
    assert KeysOwned(db.deletions, db.accounts.Keys);
  }

  /** What k rounds of the loop have done. */
  ghost predicate Drained(cfg: Config, db: DB, clock: nat -> Time, k: nat) {
    var d := RunFrom(cfg, db, Drain(clock, k));
    Drainable(d) && |d.deletions| + k == |db.deletions|
  }

  ghost predicate NobodyDue(db: DB, now: Time) {
    forall x :: !Due(db.accounts, db.deletions, x, now)
  }

  // The loop from its k-th round on.
  lemma DrainFrom(cfg: Config, db: DB, clock: nat -> Time, k: nat) returns (n: nat)
    requires Drained(cfg, db, clock, k)
    ensures Drained(cfg, db, clock, n) && NobodyDue(RunFrom(cfg, db, Drain(clock, n)), clock(n))
    decreases |db.deletions| - k
  {
    hide RunFrom, Due, Apply, DeleteDueTx, Drain;
    var d := RunFrom(cfg, db, Drain(clock, k));
    DrainStep(cfg, d, clock(k));
    DrainGrows(cfg, db, clock, k);
    if Settle(d, DeleteDueTx(d, clock(k))).answer == Flag(true) {
      n := DrainFrom(cfg, db, clock, k + 1);
    } else {
      n := k;
    }
  }

  /** From every reachable state, however the clock moves meanwhile, the loop ends after as many rounds as it removes accounts, at
      most one for each outstanding request, and then nobody is due. */
  lemma DrainEnds(cfg: Config, run: seq<Call>, now: Time, clock: nat -> Time) returns (n: nat)
    requires Ordered(run, now)
    ensures var db := After(cfg, run);
      var d := RunFrom(cfg, db, Drain(clock, n));
      |d.deletions| + n == |db.deletions| && NobodyDue(d, clock(n))
  {
    hide After, RunFrom, NobodyDue, Drainable, Drain;
    ReachableIsDrainable(cfg, run, now);
    NoRounds(cfg, After(cfg, run), clock);
    n := DrainFrom(cfg, After(cfg, run), clock, 0);
  }

  lemma NoRounds(cfg: Config, db: DB, clock: nat -> Time)
    ensures RunFrom(cfg, db, Drain(clock, 0)) == db
  {
    hide Apply;
  }
}
