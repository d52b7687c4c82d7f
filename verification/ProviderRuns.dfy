/** Operations of several transactions are runs, so whatever holds over runs holds across them. */
module ProviderRuns {
  import opened Base
  import opened Attempts
  import opened Processes
  import opened Challenges
  import opened ProviderAttempts
  import opened Rejections
  import opened Secrets
  import opened Store
  import opened Answers
  import opened OAuth
  import opened CredentialOps
  import opened Protocol
  import opened Invariant
  import opened Reachability
  import opened Service

  /** What the exchange of a provider attempt commits, in order, with what others did before its second transaction. */
  function ExchangeTrace(cfg: Config, db: DB, at: Times, id: Id, cid: Id, flow: Id, who: Principal, kind: Kind,
                         proof: ProviderProof, exchanged: Result<ProviderIdentity>, between: seq<Call>): seq<Call> {
    var first := [Call(at.begin, BeginProvider(id, cid, flow, who, kind, proof))];
    var purpose := if id in db.procs then db.procs[id].purpose else SignIn;
    var begun := Settle(db, BeginProviderTx(cfg, db, at.begin, id, cid, flow, who, kind, proof));
    if !begun.answer.Exchanging? then first
    else if exchanged.Err? || JudgeIdentity(cfg, at.judge, purpose, kind, begun.answer.nonceHash, exchanged.value).Fail? then first + between
    else first + between + [Call(at.finish, FinishProvider(id, cid, flow, who, kind, exchanged.value.subject))]
  }

  function AttemptTrace(cfg: Config, db: DB, at: Times, id: Id, cid: Id, flow: Id, who: Principal, kind: Kind,
                        proof: ProviderProof, exchanged: Result<ProviderIdentity>, between: seq<Call>, before: seq<Call>): seq<Call> {
    var trace := ExchangeTrace(cfg, db, at, id, cid, flow, who, kind, proof, exchanged, between);
    if ExchangedBy(cfg, db, at, id, cid, flow, who, kind, proof, exchanged, between).answer != Rejected(Credentials) then trace
    else trace + before + [Call(at.reject, RejectProvider(id, cid, flow, who))]
  }

  lemma OneCall(cfg: Config, db: DB, call: Call)
    ensures RunFrom(cfg, db, [call]) == Apply(cfg, db, call).db
  {
    hide Apply;
    var run := [call];
    assert run[..0] == [] && RunFrom(cfg, db, run[..0]) == db;
  }

  lemma ThenOneCall(cfg: Config, db: DB, run: seq<Call>, call: Call)
    ensures RunFrom(cfg, db, run + [call]) == Apply(cfg, RunFrom(cfg, db, run), call).db
  {
    hide Apply;
    assert (run + [call])[..|run|] == run;
  }

  lemma ProviderCalls(cfg: Config, db: DB, now: Time, id: Id, cid: Id, flow: Id, who: Principal, kind: Kind, proof: ProviderProof, subject: string)
    ensures Apply(cfg, db, Call(now, BeginProvider(id, cid, flow, who, kind, proof)))
         == Settle(db, BeginProviderTx(cfg, db, now, id, cid, flow, who, kind, proof))
    ensures Apply(cfg, db, Call(now, FinishProvider(id, cid, flow, who, kind, subject)))
         == Settle(db, FinishProviderTx(cfg, db, now, id, cid, flow, who, kind, subject))
    ensures Apply(cfg, db, Call(now, RejectProvider(id, cid, flow, who))) == Settle(db, RejectProviderTx(cfg, db, now, id, cid, flow, who))
  {
    hide BeginProviderTx, FinishProviderTx, RejectProviderTx, Settle;
  }

  lemma ExchangeIsARun(cfg: Config, db: DB, at: Times, id: Id, cid: Id, flow: Id, who: Principal, kind: Kind,
                       proof: ProviderProof, exchanged: Result<ProviderIdentity>, between: seq<Call>)
    ensures ExchangedBy(cfg, db, at, id, cid, flow, who, kind, proof, exchanged, between).db
         == RunFrom(cfg, db, ExchangeTrace(cfg, db, at, id, cid, flow, who, kind, proof, exchanged, between))
  {
    hide BeginProviderTx, FinishProviderTx, JudgeIdentity, Settle, RunFrom, Apply;
    var subject := if exchanged.Ok? then exchanged.value.subject else "";
    var first := Call(at.begin, BeginProvider(id, cid, flow, who, kind, proof));
    var last := Call(at.finish, FinishProvider(id, cid, flow, who, kind, subject));
    OneCall(cfg, db, first);
    RunSplits(cfg, db, [first], between);
    ThenOneCall(cfg, db, [first] + between, last);
    ProviderCalls(cfg, db, at.begin, id, cid, flow, who, kind, proof, subject);
    ProviderCalls(cfg, RunFrom(cfg, db, [first] + between), at.finish, id, cid, flow, who, kind, proof, subject);
  }

  /** A provider attempt, with everything that others do during it, leaves the state that its transactions leave one by one. */
  lemma AttemptIsARun(cfg: Config, db: DB, at: Times, id: Id, cid: Id, flow: Id, who: Principal, kind: Kind,
                      proof: ProviderProof, exchanged: Result<ProviderIdentity>, between: seq<Call>, before: seq<Call>)
    ensures AttemptedBy(cfg, db, at, id, cid, flow, who, kind, proof, exchanged, between, before).db
         == RunFrom(cfg, db, AttemptTrace(cfg, db, at, id, cid, flow, who, kind, proof, exchanged, between, before))
  {
    hide RejectProviderTx, ExchangedBy, ExchangeTrace, Settle, RunFrom, Apply;
    var trace := ExchangeTrace(cfg, db, at, id, cid, flow, who, kind, proof, exchanged, between);
    ExchangeIsARun(cfg, db, at, id, cid, flow, who, kind, proof, exchanged, between);
    RunSplits(cfg, db, trace, before);
    ThenOneCall(cfg, db, trace + before, Call(at.reject, RejectProvider(id, cid, flow, who)));
    ProviderCalls(cfg, RunFrom(cfg, db, trace + before), at.reject, id, cid, flow, who, kind, proof, "");
  }

  /** So it keeps every invariant that an atomic attempt keeps, whatever runs between its transactions. */
  lemma ProviderAttemptKeepsInv(cfg: Config, db: DB, clock: Time, now: Time, at: Times, id: Id, cid: Id, flow: Id, who: Principal, kind: Kind,
                                proof: ProviderProof, exchanged: Result<ProviderIdentity>, between: seq<Call>, before: seq<Call>)
    requires Inv(cfg, db, clock)
    requires Follows(clock, AttemptTrace(cfg, db, at, id, cid, flow, who, kind, proof, exchanged, between, before), now)
    ensures Inv(cfg, AttemptedBy(cfg, db, at, id, cid, flow, who, kind, proof, exchanged, between, before).db, now)
  {
    hide *;
    AttemptIsARun(cfg, db, at, id, cid, flow, who, kind, proof, exchanged, between, before);
    InvThroughout(cfg, db, clock, AttemptTrace(cfg, db, at, id, cid, flow, who, kind, proof, exchanged, between, before), now);
  }

  // ---------- a provider attempt refused for credentials ----------

  /** What a provider attempt itself does before its last transaction: at most it spends its state. */
  predicate AtMostSpent(a: DB, b: DB, proof: ProviderProof) {
    b == a || (proof.AuthorizationCode? && b == a.(oauth := a.oauth - {Digest(StateTag, 0, proof.state)}))
  }

  lemma BeginSpendsAtMost(cfg: Config, db: DB, now: Time, id: Id, cid: Id, flow: Id, who: Principal, kind: Kind, proof: ProviderProof)
    ensures AtMostSpent(db, Settle(db, BeginProviderTx(cfg, db, now, id, cid, flow, who, kind, proof)).db, proof)
    ensures !Settle(db, BeginProviderTx(cfg, db, now, id, cid, flow, who, kind, proof)).answer.Exchanging?
        ==> Settle(db, BeginProviderTx(cfg, db, now, id, cid, flow, who, kind, proof)).db == db
  {
    hide Load, Next, SpendableState;
  }

  lemma FinishRollsBack(cfg: Config, db: DB, now: Time, id: Id, cid: Id, flow: Id, who: Principal, kind: Kind, subject: string)
    requires Settle(db, FinishProviderTx(cfg, db, now, id, cid, flow, who, kind, subject)).answer == Rejected(Credentials)
    ensures Settle(db, FinishProviderTx(cfg, db, now, id, cid, flow, who, kind, subject)).db == db
  {
    hide FinishProviderTx, Next, AcceptStep, Bind, Finish;
    if FinishProviderTx(cfg, db, now, id, cid, flow, who, kind, subject).Ok? {
      FinishAdmits(cfg, db, now, id, cid, flow, who, kind, subject);
    }
  }

  // Up to the verdict that counts, others act on a state that differs by the spent state at most.
  lemma RefusedExchange(cfg: Config, db: DB, at: Times, id: Id, cid: Id, flow: Id, who: Principal, kind: Kind,
                        proof: ProviderProof, exchanged: Result<ProviderIdentity>, between: seq<Call>) returns (spent: DB, others: seq<Call>)
    requires ExchangedBy(cfg, db, at, id, cid, flow, who, kind, proof, exchanged, between).answer == Rejected(Credentials)
    ensures AtMostSpent(db, spent, proof) && (others == [] || others == between)
    ensures ExchangedBy(cfg, db, at, id, cid, flow, who, kind, proof, exchanged, between).db == RunFrom(cfg, spent, others)
  {
    hide BeginProviderTx, FinishProviderTx, JudgeIdentity, AtMostSpent, Settle, RunFrom;
    var begun := Settle(db, BeginProviderTx(cfg, db, at.begin, id, cid, flow, who, kind, proof));
    spent := begun.db;
    BeginSpendsAtMost(cfg, db, at.begin, id, cid, flow, who, kind, proof);
    if !begun.answer.Exchanging? {
      others := [];
      NoCalls(cfg, spent);
    } else {
      others := between;
      var d := RunFrom(cfg, spent, between);
      if exchanged.Ok? && Settle(d, FinishProviderTx(cfg, d, at.finish, id, cid, flow, who, kind, exchanged.value.subject)).answer == Rejected(Credentials) {
        FinishRollsBack(cfg, d, at.finish, id, cid, flow, who, kind, exchanged.value.subject);
      }
    }
  }

  lemma NoCalls(cfg: Config, db: DB)
    ensures RunFrom(cfg, db, []) == db
  {
    hide Apply;
  }

  /** A provider attempt refused for credentials adds one failure to what others did meanwhile, spends its state at most, and changes
      nothing else; it says that the attempts are used up exactly when this failure ends the process. */
  lemma ProviderRefusalOnlyCounts(cfg: Config, db: DB, clock: Time, now: Time, at: Times, id: Id, cid: Id, flow: Id, who: Principal, kind: Kind,
                                  proof: ProviderProof, exchanged: Result<ProviderIdentity>, between: seq<Call>, before: seq<Call>)
    returns (spent: DB, others: seq<Call>)
    requires Inv(cfg, db, clock)
    requires Follows(clock, AttemptTrace(cfg, db, at, id, cid, flow, who, kind, proof, exchanged, between, before), now)
    requires ExchangedBy(cfg, db, at, id, cid, flow, who, kind, proof, exchanged, between).answer == Rejected(Credentials)
    ensures AtMostSpent(db, spent, proof) && (others == before || others == between + before)
    ensures var d, c := RunFrom(cfg, spent, others), AttemptedBy(cfg, db, at, id, cid, flow, who, kind, proof, exchanged, between, before);
      if c.answer in {Rejected(Credentials), Rejected(Attempts)}
      then OneMoreFailure(cfg, d, c.db, id, cid) && (c.answer == Rejected(Attempts) <==> c.db.procs[id].status == Failed)
      else c.db == d
  {
    hide Inv, RejectProviderTx, ExchangedBy, ExchangeTrace, Settle, RunFrom, Apply, AtMostSpent, OneMoreFailure;
    var first: seq<Call>;
    spent, first := RefusedExchange(cfg, db, at, id, cid, flow, who, kind, proof, exchanged, between);
    others := first + before;
    assert [] + before == before;
    RunSplits(cfg, spent, first, before);
    var trace := ExchangeTrace(cfg, db, at, id, cid, flow, who, kind, proof, exchanged, between);
    ExchangeIsARun(cfg, db, at, id, cid, flow, who, kind, proof, exchanged, between);
    RunSplits(cfg, db, trace, before);
    var last := Call(at.reject, RejectProvider(id, cid, flow, who));
    var whole := trace + before + [last];
    assert whole[..|whole| - 1] == trace + before && whole[|whole| - 1] == last;
    FollowsPrefix(clock, whole, now);
    InvThroughout(cfg, db, clock, trace + before, at.reject);
    RefusalCounts(cfg, RunFrom(cfg, spent, others), at.reject, id, cid, flow, who);
  }

  lemma RefusalCounts(cfg: Config, db: DB, now: Time, id: Id, cid: Id, flow: Id, who: Principal)
    requires Inv(cfg, db, now)
    ensures var c := Settle(db, RejectProviderTx(cfg, db, now, id, cid, flow, who));
      if c.answer in {Rejected(Credentials), Rejected(Attempts)}
      then OneMoreFailure(cfg, db, c.db, id, cid) && (c.answer == Rejected(Attempts) <==> c.db.procs[id].status == Failed)
      else c.db == db
  {
    hide Core, RejectProviderTx, OneMoreFailure, StepKeysOk, AccountsOk, SessionsOk, ProcKeysOk, OAuthOk, ChangesOk, ResetsOk, PasskeysOk,
      IdentitiesOk, BackupsOk;
    RejectionErrors(cfg, db, now, id, cid, flow, who);
    if RejectProviderTx(cfg, db, now, id, cid, flow, who).Ok? {
      ProviderRejectionOnlyCounts(cfg, db, now, now, id, cid, flow, who);
      HasRow(cfg, db, RejectProviderTx(cfg, db, now, id, cid, flow, who).value.db, id, cid);
    }
  }

  lemma HasRow(cfg: Config, a: DB, b: DB, id: Id, cid: Id)
    requires OneMoreFailure(cfg, a, b, id, cid)
    ensures id in b.procs
  {
  }

  lemma RejectionErrors(cfg: Config, db: DB, now: Time, id: Id, cid: Id, flow: Id, who: Principal)
    ensures var r := RejectProviderTx(cfg, db, now, id, cid, flow, who); r.Err? ==> r.error != Credentials && r.error != Attempts
  {
    hide CountFailure, FailureAnswer, PurposePrincipal;
  }

  // ---------- linking an identity ----------

  function LinkTrace(cfg: Config, db: DB, begin: Time, finish: Time, who: Principal, grant: Id, provider: Provider, state: Id,
                     exchanged: Result<ProviderIdentity>, between: seq<Call>): seq<Call> {
    var first := [Call(begin, BeginLink(who, provider, state))];
    var begun := Settle(db, BeginLinkTx(cfg, db, begin, who, provider, state));
    if !begun.answer.Exchanging? then first
    else if exchanged.Err? || !LinkProved(provider, begun.answer.nonceHash, exchanged.value) then first + between
    else first + between + [Call(finish, FinishLink(who, grant, provider, exchanged.value.subject))]
  }

  predicate LinkProved(provider: Provider, nonceHash: Digest, i: ProviderIdentity) {
    i.subject != "" && (provider == GoogleProvider ==> i.nonce.Some? && nonceHash == Digest(NonceTag, 0, i.nonce.value))
  }

  /** Linking an identity is a run of its two transactions and of what others do between them. */
  lemma LinkIsARun(cfg: Config, db: DB, begin: Time, finish: Time, who: Principal, grant: Id, provider: Provider, state: Id,
                   exchanged: Result<ProviderIdentity>, between: seq<Call>)
    ensures LinkedBy(cfg, db, begin, finish, who, grant, provider, state, exchanged, between).db
         == RunFrom(cfg, db, LinkTrace(cfg, db, begin, finish, who, grant, provider, state, exchanged, between))
  {
    hide BeginLinkTx, FinishLinkTx, Settle, RunFrom, Apply;
    var subject := if exchanged.Ok? then exchanged.value.subject else "";
    var first := Call(begin, BeginLink(who, provider, state));
    OneCall(cfg, db, first);
    RunSplits(cfg, db, [first], between);
    ThenOneCall(cfg, db, [first] + between, Call(finish, FinishLink(who, grant, provider, subject)));
    LinkCalls(cfg, db, begin, who, grant, provider, state, subject);
    LinkCalls(cfg, RunFrom(cfg, db, [first] + between), finish, who, grant, provider, state, subject);
  }

  lemma LinkCalls(cfg: Config, db: DB, now: Time, who: Principal, grant: Id, provider: Provider, state: Id, subject: string)
    ensures Apply(cfg, db, Call(now, BeginLink(who, provider, state))) == Settle(db, BeginLinkTx(cfg, db, now, who, provider, state))
    ensures Apply(cfg, db, Call(now, FinishLink(who, grant, provider, subject))) == Settle(db, FinishLinkTx(db, now, who, grant, provider, subject))
  {
    hide BeginLinkTx, FinishLinkTx, Settle;
  }

  // ---------- an accepted provider attempt ----------

  /** The first transaction let the attempt through: it spent a live state of this step, or read the nonce of this step. */
  predicate Begun(db: DB, now: Time, cid: Id, flow: Id, kind: Kind, proof: ProviderProof, nonce: Digest) {
    && IsProvider(kind) && cid in db.steps && db.steps[cid].kind == kind
    && match proof
       case AuthorizationCode(state) =>
         var key := Digest(StateTag, 0, state);
         key in db.oauth && SpendableState(db.oauth[key], kind, cid, flow, now) && db.oauth[key].nonce == nonce
       case IdToken(_) => kind == Google && db.steps[cid].detail == NonceSent(nonce)
  }

  /** Between the transactions the provider named a subject, for the nonce of this attempt. */
  predicate Vouched(cfg: Config, now: Time, purpose: Purpose, kind: Kind, nonce: Digest, exchanged: Result<ProviderIdentity>) {
    && exchanged.Ok? && exchanged.value.subject != ""
    && (kind == Google ==> exchanged.value.nonce.Some? && Digest(NonceTag, 0, exchanged.value.nonce.value) == nonce)
    && (Sensitive(purpose) ==> exchanged.value.authenticatedAt.Some? && now - cfg.reuseTTL <= exchanged.value.authenticatedAt.value)
  }

  lemma PassVouches(cfg: Config, now: Time, purpose: Purpose, kind: Kind, nonce: Digest, who: ProviderIdentity)
    ensures JudgeIdentity(cfg, now, purpose, kind, nonce, who).Pass? ==> Vouched(cfg, now, purpose, kind, nonce, Ok(who))
  {
  }

  lemma BeginMeans(cfg: Config, db: DB, now: Time, id: Id, cid: Id, flow: Id, who: Principal, kind: Kind, proof: ProviderProof)
    requires Settle(db, BeginProviderTx(cfg, db, now, id, cid, flow, who, kind, proof)).answer.Exchanging?
    ensures BeginProviderTx(cfg, db, now, id, cid, flow, who, kind, proof).Ok? && id in db.procs
    ensures Begun(db, now, cid, flow, kind, proof, Settle(db, BeginProviderTx(cfg, db, now, id, cid, flow, who, kind, proof)).answer.nonceHash)
  {
    hide PurposePrincipal, Next;
  }

  /** The state between the first transaction and the second. */
  function Middle(cfg: Config, db: DB, at: Times, id: Id, cid: Id, flow: Id, who: Principal, kind: Kind,
                  proof: ProviderProof, between: seq<Call>): DB {
    RunFrom(cfg, Settle(db, BeginProviderTx(cfg, db, at.begin, id, cid, flow, who, kind, proof)).db, between)
  }

  function NonceOf(cfg: Config, db: DB, now: Time, id: Id, cid: Id, flow: Id, who: Principal, kind: Kind, proof: ProviderProof): Digest {
    var answer := Settle(db, BeginProviderTx(cfg, db, now, id, cid, flow, who, kind, proof)).answer;
    if answer.Exchanging? then answer.nonceHash else Digest(NonceTag, 0, 0)
  }

  lemma AcceptedMeans(cfg: Config, db: DB, at: Times, id: Id, cid: Id, flow: Id, who: Principal, kind: Kind,
                      proof: ProviderProof, exchanged: Result<ProviderIdentity>, between: seq<Call>, before: seq<Call>)
    requires AttemptedBy(cfg, db, at, id, cid, flow, who, kind, proof, exchanged, between, before).answer.Attempted?
    ensures BeginProviderTx(cfg, db, at.begin, id, cid, flow, who, kind, proof).Ok? && id in db.procs && exchanged.Ok?
    ensures var nonce := NonceOf(cfg, db, at.begin, id, cid, flow, who, kind, proof);
      Begun(db, at.begin, cid, flow, kind, proof, nonce) && Vouched(cfg, at.judge, db.procs[id].purpose, kind, nonce, exchanged)
    ensures var m := Middle(cfg, db, at, id, cid, flow, who, kind, proof, between);
      && FinishProviderTx(cfg, m, at.finish, id, cid, flow, who, kind, exchanged.value.subject).Ok?
      && AttemptedBy(cfg, db, at, id, cid, flow, who, kind, proof, exchanged, between, before)
         == FinishProviderTx(cfg, m, at.finish, id, cid, flow, who, kind, exchanged.value.subject).value
      && AttemptTrace(cfg, db, at, id, cid, flow, who, kind, proof, exchanged, between, before)
         == [Call(at.begin, BeginProvider(id, cid, flow, who, kind, proof))] + between
            + [Call(at.finish, FinishProvider(id, cid, flow, who, kind, exchanged.value.subject))]
  {
    hide BeginProviderTx, FinishProviderTx, RejectProviderTx, JudgeIdentity, RunFrom, Begun, Vouched;
    var begun := Settle(db, BeginProviderTx(cfg, db, at.begin, id, cid, flow, who, kind, proof));
    RejectionIsNoAcceptance(cfg, RunFrom(cfg, ExchangedBy(cfg, db, at, id, cid, flow, who, kind, proof, exchanged, between).db, before),
                            at.reject, id, cid, flow, who);
    BeginAnswers(cfg, db, at.begin, id, cid, flow, who, kind, proof);
    if begun.answer.Exchanging? {
      BeginMeans(cfg, db, at.begin, id, cid, flow, who, kind, proof);
      if exchanged.Ok? {
        PassVouches(cfg, at.judge, db.procs[id].purpose, kind, begun.answer.nonceHash, exchanged.value);
      }
    }
  }

  lemma BeginAnswers(cfg: Config, db: DB, now: Time, id: Id, cid: Id, flow: Id, who: Principal, kind: Kind, proof: ProviderProof)
    ensures !Settle(db, BeginProviderTx(cfg, db, now, id, cid, flow, who, kind, proof)).answer.Attempted?
  {
    hide Load, Next, SpendableState;
  }

  lemma RejectionIsNoAcceptance(cfg: Config, db: DB, now: Time, id: Id, cid: Id, flow: Id, who: Principal)
    ensures !Settle(db, RejectProviderTx(cfg, db, now, id, cid, flow, who)).answer.Attempted?
  {
    hide Load, CountFailure;
  }

  /** At the second commit the step is as the first transaction saw it, live, pending, unexpired and offered; the subject belongs to
      an unblocked account; and the attempt does what accepting that account there and then does. */
  ghost predicate AcceptedAt(cfg: Config, db: DB, m: DB, now: Time, id: Id, cid: Id, flow: Id, kind: Kind, subject: string, result: DB) {
    && Admitted(cfg, m, now, id, cid, flow) && m.steps[cid].expires > now
    && cid in db.steps && m.steps[cid].kind == db.steps[cid].kind == kind && m.steps[cid].detail == db.steps[cid].detail && IsProvider(kind)
    && var owner := IdentityOwner(m.identities, m.supply, ProviderOf(kind), subject);
      && IdentityFits(m, m.procs[id], owner)
      && m.identities[IdentityKey(owner.value, ProviderOf(kind))] == subject
      && AcceptIdentity(cfg, m, now, id, cid, owner.value).Ok?
      && result == AcceptIdentity(cfg, m, now, id, cid, owner.value).value.db
  }

  /** A provider attempt that is accepted in the middle of any run takes effect at its second commit, whatever ran since its first;
      the nonce it was vouched for is the one of its own step or state, and no other call of the run spends that state. */
  lemma ProviderAttemptLinearises(cfg: Config, run: seq<Call>, now: Time, at: Times, id: Id, cid: Id, flow: Id, who: Principal, kind: Kind,
                                  proof: ProviderProof, exchanged: Result<ProviderIdentity>, between: seq<Call>, before: seq<Call>)
    requires AttemptedBy(cfg, After(cfg, run), at, id, cid, flow, who, kind, proof, exchanged, between, before).answer.Attempted?
    requires Ordered(run + AttemptTrace(cfg, After(cfg, run), at, id, cid, flow, who, kind, proof, exchanged, between, before), now)
    ensures var db := After(cfg, run);
      && id in db.procs && exchanged.Ok?
      && var nonce := NonceOf(cfg, db, at.begin, id, cid, flow, who, kind, proof);
        Begun(db, at.begin, cid, flow, kind, proof, nonce) && Vouched(cfg, at.judge, db.procs[id].purpose, kind, nonce, exchanged)
    ensures var db := After(cfg, run);
      AcceptedAt(cfg, db, Middle(cfg, db, at, id, cid, flow, who, kind, proof, between), at.finish, id, cid, flow, kind, exchanged.value.subject,
                 AttemptedBy(cfg, db, at, id, cid, flow, who, kind, proof, exchanged, between, before).db)
    ensures proof.AuthorizationCode? ==>
      var whole := run + AttemptTrace(cfg, After(cfg, run), at, id, cid, flow, who, kind, proof, exchanged, between, before);
      forall k: nat | k < |whole| && k != |run| :: !UsesState(cfg, After(cfg, whole[..k]), whole[k], proof.state)
  {
    hide AttemptedBy, AttemptTrace, Middle, NonceOf, Begun, Vouched, AcceptedAt, UsesState, After, RunFrom, BeginProviderTx, FinishProviderTx;
    var db := After(cfg, run);
    var whole := run + AttemptTrace(cfg, db, at, id, cid, flow, who, kind, proof, exchanged, between, before);
    AcceptedMeans(cfg, db, at, id, cid, flow, who, kind, proof, exchanged, between, before);
    var n, f := |run|, |run| + 1 + |between|;
    var first, last := Call(at.begin, BeginProvider(id, cid, flow, who, kind, proof)), Call(at.finish, FinishProvider(id, cid, flow, who, kind, exchanged.value.subject));
    assert whole[..n] == run && whole[n] == first && whole[f] == last && whole[..f] == run + [first] + between;
    MiddleIsReached(cfg, run, at, id, cid, flow, who, kind, proof, between);
    assert whole[..f] == run + [first] + between;
    AcceptedThere(cfg, whole, now, n, f);
    BeginSeesTheStep(cfg, db, at.begin, id, cid, flow, who, kind, proof);
    if proof.AuthorizationCode? {
      OnlyUse(cfg, whole, now, n, proof.state);
    }
  }

  lemma MiddleIsReached(cfg: Config, run: seq<Call>, at: Times, id: Id, cid: Id, flow: Id, who: Principal, kind: Kind,
                        proof: ProviderProof, between: seq<Call>)
    ensures Middle(cfg, After(cfg, run), at, id, cid, flow, who, kind, proof, between)
         == After(cfg, run + [Call(at.begin, BeginProvider(id, cid, flow, who, kind, proof))] + between)
  {
    hide Apply, Settle, RunFrom;
    var first := Call(at.begin, BeginProvider(id, cid, flow, who, kind, proof));
    ThenOneCall(cfg, EMPTY, run, first);
    RunSplits(cfg, EMPTY, run + [first], between);
    ProviderCalls(cfg, After(cfg, run), at.begin, id, cid, flow, who, kind, proof, "");
  }

  // The second commit of an attempt, somewhere in a run.
  lemma AcceptedThere(cfg: Config, run: seq<Call>, now: Time, i: nat, j: nat)
    requires Ordered(run, now) && i < j < |run| && SameAttempt(run[i].action, run[j].action)
    requires var b := run[i].action; BeginProviderTx(cfg, After(cfg, run[..i]), run[i].now, b.id, b.cid, b.flow, b.who, b.kind, b.token).Ok?
    requires var f := run[j].action; FinishProviderTx(cfg, After(cfg, run[..j]), run[j].now, f.id, f.cid, f.flow, f.who, f.kind, f.subject).Ok?
    ensures var m, f := After(cfg, run[..j]), run[j].action;
      AcceptedAt(cfg, After(cfg, run[..i]), m, run[j].now, f.id, f.cid, f.flow, f.kind, f.subject,
                 FinishProviderTx(cfg, m, run[j].now, f.id, f.cid, f.flow, f.who, f.kind, f.subject).value.db)
  {
    hide After, FinishProviderTx, BeginProviderTx, Next, IdentityOwner, AcceptIdentity, Transact;
    var db, m, b, f := After(cfg, run[..i]), After(cfg, run[..j]), run[i].action, run[j].action;
    BeginSeesTheStep(cfg, db, run[i].now, b.id, b.cid, b.flow, b.who, b.kind, b.token);
    FinishAdmits(cfg, m, run[j].now, f.id, f.cid, f.flow, f.who, f.kind, f.subject);
    KindNeverChanges(cfg, run, now, i, j, f.cid);
  }

  lemma BeginSeesTheStep(cfg: Config, db: DB, now: Time, id: Id, cid: Id, flow: Id, who: Principal, kind: Kind, proof: ProviderProof)
    requires BeginProviderTx(cfg, db, now, id, cid, flow, who, kind, proof).Ok?
    ensures cid in db.steps && db.steps[cid].kind == kind
    ensures proof.AuthorizationCode? ==> UsesState(cfg, db, Call(now, BeginProvider(id, cid, flow, who, kind, proof)), proof.state)
  {
    hide Load, Next;
  }

  lemma OnlyUse(cfg: Config, run: seq<Call>, now: Time, n: nat, state: Id)
    requires Ordered(run, now) && n < |run| && UsesState(cfg, After(cfg, run[..n]), run[n], state)
    ensures forall k: nat | k < |run| && k != n :: !UsesState(cfg, After(cfg, run[..k]), run[k], state)
  {
    hide After, UsesState;
    forall k: nat | k < |run| && k != n
      ensures !UsesState(cfg, After(cfg, run[..k]), run[k], state)
    {
      if k < n {
        if UsesState(cfg, After(cfg, run[..k]), run[k], state) {
          StateSpentOnce(cfg, run, now, k, n, state);
        }
      } else {
        StateSpentOnce(cfg, run, now, n, k, state);
      }
    }
  }
}
