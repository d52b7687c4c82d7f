# Authentication engine: a verified model

This project models the authentication engine in `internal/authentication`, the outbox worker in `internal/outbox/worker.go` and the
deletion loop in `internal/app/app.go`, and proves what holds over all their runs.

The database is a value: one map for each table of `schema/initial.sql` (module `Store`). A transaction is a function from the state, the
time and the arguments to a committed state with its answer, or to an error that leaves the state as it was (`Answers.Settle`). The
transactions are serialised by one advisory lock, so a run is a sequence of calls, each at its own reading of a clock that never goes
back (module `Protocol`), and "reachable" means: after some run from the empty database. Provider sign-in and identity linking are
several transactions; whatever other clients do between them is an argument. The class `Service.Engine` holds the database as a mutable field
and performs each operation statement by statement on an open `Transactions.Transaction`; every method is proved to commit exactly what its
transaction function says. The lemmas are about those functions and about runs of them.

How the modules build on one another:

- `Base`, `Secrets`, `Store`, `Answers`: values, hash inputs and one-time codes, tables with their cascades and lookups, results.
- `Processes`, `Challenges`, `OAuth`, `Accounts`, `Totps`, `Sessions`, `Mails`, `CredentialOps`, `Cleanups`: the transactions, file by file.
- `Protocol`: calls and runs. `Transactions`, `Service`: the same operations as methods that change state.
- `Invariant`, `Quietness`, `QuietActions`, `Frames`, `Flows`, `FlowActions`, `Acceptance`, `Attempts`, `Registrations`, `KeyActions`,
  `Reachability`: the invariant and its preservation by every transaction.
- `Evolution`, `Grants`, `SessionCount`, `Barriers`, `Progress`, `Rejections`, `Trust`, `Links`, `References`, `ProviderAttempts`,
  `ProviderRuns`, `Ledger`, `Deletions`, `Draining`, `SignUps`, `EmailChanges`, `LinkUse`, `RefreshChain`, `CodeUse`: what holds over runs.
- `Trimming`, `Similarity`, `SimilarAccounts`, `SimilarSessions`, `SimilarFlows`, `Neutrality`, `CleanedRuns`, `StaleRow`: cleanup makes no
  difference, and where it does.
- `Limiter`, `Delivery`, `Feeding`: the attempt limiter, the outbox worker, and the worker on the outbox of the engine.

## Assumptions

- Hashes are collision-free: a stored hash is the triple of tag, context and value it was computed from. That the bytes fed to the MAC
  determine the triple is proved (`Secrets.PreimageInjective`, `Secrets.DomainsAreSeparate`).
- Ids, tokens and codes that the engine draws come from one supply of numbers that never repeats; the six-digit e-mail code is an argument.
- Rows referring to a deleted row are deleted with it, as `schema/initial.sql` declares; unique keys are enforced by the checks of the
  transactions, and both are proved to hold in every reachable state.
- A transaction reads the clock once.
- bcrypt, the MAC behind one-time codes, WebAuthn, the providers and the address parser are arguments or settings of type function.
- `SetBlocked` stands for an operator who blocks or unblocks an account in the table; the repository only reads the flag.

## Findings

- A change of address inserts its row plainly (internal/authentication/mail.go:157). A request whose link has lapsed and that was not yet
  collected therefore refuses the next one as a conflict, and a cleanup in between makes it succeed: `StaleRow.CleaningUpMakesADifference`
  gives a run, `CleanedRuns.FirstDifference` the exact condition, and everywhere else cleaning up changes no decision.
- The limiter grants at most nineteen tries in any five minutes, one less than twice its window limit: the first try of a window is at
  its start, so a half-open interval cannot meet all of two windows.
- The second transaction of a provider attempt does not look at the kind of the step again, and need not: the kind the first one saw is
  still that of the step (`ProviderAttempts.KindNeverChanges`). The model's second transaction compares the two, because it is also a call
  of its own, and `ProviderAttempts.KindRecheckIsRedundant` shows that within an attempt the comparison never fails.

## Model

| member | source | states |
|---|---|---|
| Service.Engine.Start | internal/authentication/process.go:12-62 | opens a process, complete at once when recent evidence allows; leaves exactly the state and answer of the specified transaction, or the old state with the error |
| Service.Engine.CreateChallenge | internal/authentication/challenge.go:16-98 | adds one pending step in place of the pending steps of its kind, with its code, nonce or OAuth request; all or nothing |
| Service.Engine.CreateOAuthChallenge | internal/authentication/oauth.go:36-81 | writes the nonce or the OAuth request of a provider step into the open transaction |
| Service.Engine.Attempt | internal/authentication/challenge.go:124-235 | judges a proof; a wrong one commits only a failure, every other error rolls back |
| Service.Engine.Advance | internal/authentication/challenge.go:175-232 | after an accepted step: cancels its alternatives, then goes on, or completes the process with a grant |
| Service.Engine.AdvanceSignUp | internal/authentication/challenge.go:183-211 | after an accepted stage of a sign-up: goes on, creates the account, or fails the registration on a taken address |
| Service.Engine.AttemptProvider | internal/authentication/oauth.go:219-253 | runs up to three transactions at their own times, with any calls of others between them; equals the specified interleaved attempt, and counts only a rejection for credentials |
| Service.Engine.ExchangeProvider | internal/authentication/oauth.go:82-213 | runs the first two transactions around the exchange, with the checks on the identity between them |
| Service.Engine.BeginProvider | internal/authentication/oauth.go:82-129 | the first transaction: the attempt is allowed and its state is spent |
| Service.Engine.FinishProvider | internal/authentication/oauth.go:149-213 | the second transaction: everything is checked again and the factor accepted |
| Service.Engine.RejectProvider | internal/authentication/oauth.go:219-253 | the third transaction: one failure is counted |
| Service.Engine.Cleanup | internal/authentication/cleanup.go:10-34 | purges seven tables by a loop of statements; equals the purge by specification |
| Service.Engine.SetPassword | internal/authentication/account.go:20-64 | replaces the password with or without a grant, voids the processes and ends the other sessions |
| Service.Engine.SetUsername | internal/authentication/account.go:74-99 | sets a valid, free username |
| Service.Engine.RequestDeletion | internal/authentication/account.go:113-135 | schedules a deletion, or changes the policy of one that is not due |
| Service.Engine.PatchDeletion | internal/authentication/account.go:136-163 | changes the policy of a request that is not due |
| Service.Engine.CancelDeletion | internal/authentication/account.go:164-191 | withdraws a request that is not due |
| Service.Engine.DeleteDueAccount | internal/authentication/account.go:192-223 | deletes one due account with everything that belongs to it, and queues its event and its mail |
| Service.Engine.StartTotp | internal/authentication/totp.go:49-96 | opens or replaces an activation request on a grant |
| Service.Engine.ConfirmTotp | internal/authentication/totp.go:97-146 | asks the limiter first, then enrols; a refusal of the limiter leaves the database alone |
| Service.Engine.DeleteTotp | internal/authentication/totp.go:147-163 | removes the factor on a grant |
| Service.Engine.RotateBackupCodes | internal/authentication/totp.go:182-202 | replaces the backup codes on a grant |
| Service.Engine.CreateSession | internal/authentication/sessions.go:30-72 | spends a sign-in or sign-up grant for a session and its tokens |
| Service.Engine.Refresh | internal/authentication/sessions.go:73-104 | rotates the refresh token in place |
| Service.Engine.RevokeSessions | internal/authentication/sessions.go:136-154 | ends one or all sessions of the caller |
| Service.Engine.LogoutRefresh | internal/authentication/sessions.go:155-167 | ends the session of a refresh token |
| Service.Engine.StartPasswordReset | internal/authentication/mail.go:53-88 | queues a reset link for a known, unblocked address and says nothing about the others |
| Service.Engine.ConfirmPasswordReset | internal/authentication/mail.go:89-125 | replaces the password on a live link and ends every session |
| Service.Engine.ChangeEmail | internal/authentication/mail.go:126-165 | opens the first stage of an address change by a plain insert |
| Service.Engine.ConfirmEmail | internal/authentication/mail.go:166-220 | moves the request to its second stage, or the address to the new one |
| Service.Engine.PrepareIdentityOAuth | internal/authentication/identities.go:44-90 | opens an OAuth request of the session |
| Service.Engine.LinkIdentity | internal/authentication/identities.go:91-154 | runs the two transactions of linking around the exchange, with any calls of others between them |
| Service.Engine.UnlinkIdentity | internal/authentication/identities.go:155-183 | removes an identity unless it is the last credential |
| Service.Engine.StartPasskey | internal/authentication/passkeys.go:108-138 | opens a registration request on a grant |
| Service.Engine.RegisterPasskey | internal/authentication/passkeys.go:139-191 | stores a verified credential and voids the processes of the account |
| Service.Engine.DeletePasskey | internal/authentication/passkeys.go:236-260 | removes a passkey unless it is the last credential |
| Service.Engine.DrainDeletions | internal/app/app.go:218-243 | the loop is a run of single deletions; it stops when nobody is due at the last clock reading, or when a deletion fails and rolls back, having removed one account a round |
| Service.CheckUsername | internal/authentication/account.go:226-247 | the loop over the letters and the loop over the forbidden words decide exactly the valid usernames |
| Transactions.Transaction.ConsumeGrant | internal/authentication/process.go:206-236 | spends the grant inside an open transaction, or changes nothing and says why |
| Transactions.Transaction.Verify | internal/authentication/challenge.go:243-342 | the proof checks, with what an accepted proof writes |
| Transactions.Transaction.Register | internal/authentication/challenge.go:343-388 | the account row, its event and the end of the registration row |
| Transactions.Transaction.RecordFailure | internal/authentication/challenge.go:154-171 | one more failure of the process and of the step |
| Transactions.Transaction.ReplaceBackupCodes | internal/authentication/totp.go:164-181 | the loop draws ten codes and replaces those of the account |
| Transactions.Transaction.Purge | internal/authentication/cleanup.go:10-34 | the loop over the statements equals their composition |
| Reachability.Reachable | internal/authentication/transaction.go:13-31 | after every run of transactions under a clock that never goes back the whole invariant holds: shape of processes and steps, failure budget, stages, uniqueness and freshness of every key |
| Reachability.InvKept | internal/authentication/transaction.go:13-31 | each of the thirty-three transactions keeps the invariant |
| Progress.LiveProcessesGoOn | internal/authentication/process.go:116-172 | in every reachable state the branch for a first factor without an account is not taken, and a live pending process is offered a method |
| Progress.AttemptsAreBounded | internal/authentication/challenge.go:154-171 | under every interleaving a process takes at most the attempt limit plus two committed attempts, and after so many it is not pending |
| Rejections.AttemptOutcomes | internal/authentication/challenge.go:154-217 | a committed attempt is accepted, loses its address, or only counts one failure; a counted failure reports exhausted attempts exactly when it fails the process |
| ProviderRuns.ProviderRefusalOnlyCounts | internal/authentication/oauth.go:219-253 | a whole provider attempt refused for credentials adds one failure to what others did meanwhile and spends its state at most |
| Evolution.RunEvolves | internal/authentication/process.go:188-205 | over any run: purpose, session, flow token and expiry never change, the account is bound once, a settled row stays settled, a grant is issued only on completion, a settled step never changes, vanished rows do not return |
| Trust.SecondFactorHolds | internal/authentication/process.go:141-172 | in every reachable state a live completed process of an enrolled account proved a second factor, itself or through the process it was derived from, and is no registration |
| Trust.TrustWindow | internal/authentication/process.go:182-187 | a completed process without steps was completed by its start, on recent steps of another live process of its account and session |
| Trust.StartedWithinTheWindow | internal/authentication/process.go:47-57 | a process that its start completed never acquires a step, so the window bounds it at every later moment |
| Trust.DerivedBacksNothing | internal/authentication/process.go:182-187 | a process without steps is evidence for nothing, so derived trust is not derived again |
| Trust.CompletionHasSteps | internal/authentication/process.go:188-205 | a process that completes after its start completes by a step of its own |
| Barriers.CredentialBarrier | internal/authentication/account.go:16-19 | whatever an account had started before one of the ten credential changes is over in every later state |
| Barriers.ChangesVoid | internal/authentication/account.go:16-19 | each of the ten credential changes voids every process of the account |
| Grants.TokenSpentOnce | internal/authentication/process.go:206-236 | over any run at most one committed transaction spends a confirmation token |
| Grants.SpendingIsBound | internal/authentication/process.go:206-236 | a committed spending shows a live grant of its own purpose, and for a sensitive purpose the account and session it was issued to |
| Grants.OrdersHonoured | internal/authentication/process.go:206-236 | every transaction that takes a token commits only after spending it, and issues no other grant; an action that fails leaves the token unspent |
| Grants.SessionsNeedTheirOwnSignIn | internal/authentication/sessions.go:30-72 | two created sessions took two different completed sign-ins or sign-ups |
| SessionCount.SessionsArePaid | internal/authentication/sessions.go:30-72 | over any run the sessions created plus the grants outstanding never exceed the sign-ins and sign-ups completed |
| ProviderRuns.ProviderAttemptLinearises | internal/authentication/oauth.go:82-213 | an accepted attempt in the middle of any run: the first transaction spent a live state of its step or read its nonce, the provider vouched for that nonce, no other call of the run spends the state, and the result is that of accepting the linked, unblocked account at the second commit, where process and step are live, pending, unexpired and offered |
| ProviderRuns.AttemptIsARun | internal/authentication/oauth.go:219-253 | the interleaved attempt leaves the state its transactions leave one by one among the calls of others |
| ProviderRuns.ProviderAttemptKeepsInv | internal/authentication/oauth.go:219-253 | so it keeps the invariant of the atomic transactions |
| ProviderRuns.LinkIsARun | internal/authentication/identities.go:91-154 | linking an identity leaves the state its two transactions leave among the calls of others |
| ProviderAttempts.StateSpentOnce | internal/authentication/oauth.go:110-129 | over any run at most one committed transaction spends an authorization state |
| ProviderAttempts.KindNeverChanges | internal/authentication/oauth.go:149-170 | whatever runs between, a step keeps its kind, its process and its secret |
| ProviderAttempts.KindRecheckIsRedundant | internal/authentication/oauth.go:149-170 | the second transaction meets the kind the first one saw |
| CleanedRuns.CleanupIsNeutral | internal/authentication/cleanup.go:10-34 | from any reachable state and over any later run, with or without an interposed cleanup every call is accepted or refused alike with the same answer if and only if no call asks for a change of address in order that meets a request lapsed before the cleanup; and then accounts, factors, events and unexpired sessions come out the same |
| CleanedRuns.RunsStaySimilar | internal/authentication/cleanup.go:10-34 | two states that differ in dead rows only answer a run alike exactly when it meets no lapsed request, and then still differ in dead rows only |
| Neutrality.EveryActionSimilar | internal/authentication/cleanup.go:10-34 | each transaction commits with the same answer, or rolls back, on both of two states that differ in dead rows only, and they still do; a change of address must not meet a request that only one of them holds |
| CleanedRuns.FirstDifference | internal/authentication/mail.go:126-165 | the first answer of a later run that a cleanup changes is that of the first call that asks for a change of address in order (address parses and differs, grant in the caller's hands, link base good) and meets a request lapsed before the cleanup |
| StaleRow.CleaningUpMakesADifference | internal/authentication/mail.go:157 | a reachable run after which the second request is refused with the lapsed row and accepted without it |
| StaleRow.SomeServiceIsPermissive | internal/authentication/mail.go:126-165 | settings under which that run happens exist |
| References.ReferencesHold | schema/initial.sql:9-105 | in every reachable state every foreign key points at a row |
| Links.LinkedThroughout | schema/initial.sql:59-65 | over every run nothing hangs on a session or step that is gone |
| SignUps.AccountsAreSignedUp | internal/authentication/challenge.go:343-388 | a new account comes from one attempt of a process that completed registration, e-mail and password setup in that order; its address is the registered one, to which the proved code was queued, and was free |
| SignUps.AddressedAfter | internal/authentication/challenge.go:70-90 | in every reachable state each e-mail step holds the registered address of its process and its code was queued there |
| SignUps.LosingSignUpFails | internal/authentication/steps.go:46-74 | the sign-up that loses its address ends failed, with accounts untouched and without a grant |
| Registrations.AttemptAccounts | internal/authentication/challenge.go:183-217 | an attempt either leaves accounts and events alone or enlists exactly one account |
| Ledger.BooksBalance | internal/authentication/challenge.go:364-381 | after every run the live accounts are profile.created minus profile.deleted events, account by account and in number |
| Deletions.OpenOrDue | internal/authentication/account.go:136-191 | at any instant a request is either cancellable and patchable, or due and closed to its owner |
| Deletions.DeadlineNeverMoves | internal/authentication/account.go:113-135 | no transaction moves the deadline of a request |
| Deletions.RequestCarriesPolicy | internal/authentication/account.go:136-163 | a standing request carries the policy last accepted from its owner |
| Deletions.DeletionCarriesPolicy | internal/authentication/account.go:192-223 | a deletion takes a due account and announces the policy last accepted, or nobody is due |
| Draining.DrainEnds | internal/app/app.go:218-243 | from every reachable state the loop ends after as many rounds as it removes accounts, at most one for each request, and then nobody is due |
| EmailChanges.AddressesMoveInTwoStages | internal/authentication/mail.go:126-220 | over every run an address moves only after a grant-authorised request, then the token mailed to the old address, then the token mailed to the new one, each unexpired, and it is still the old one at the last commit |
| EmailChanges.RequestsHaveHistory | internal/authentication/mail.go:126-220 | every standing request has this history in the run behind it |
| LinkUse.ChangeLinkUsedOnce | internal/authentication/mail.go:166-220 | over any run a link that changes an address is effective at most once, so the tokens of the two stages differ |
| LinkUse.ResetLinkUsedOnce | internal/authentication/mail.go:89-125 | over any run a link that resets a password is effective at most once |
| RefreshChain.LastIssuedIsAccepted | internal/authentication/sessions.go:73-104 | after every run a live session accepts exactly the refresh token that the run issued for it last |
| RefreshChain.OneTokenAtATime | internal/authentication/sessions.go:73-104 | a session accepts one refresh token at a time |
| RefreshChain.RefreshHandsOver | internal/authentication/sessions.go:73-104 | a committed refresh hands over to the token it returns and to no other; a refused one changes nothing |
| RefreshChain.RefreshTokenUsedOnce | internal/authentication/sessions.go:73-104 | over any run a refresh token is accepted at most once, even by racing refreshes |
| RefreshChain.ResetEndsSessions | internal/authentication/mail.go:89-125 | after a reset no session of the account is left |
| RefreshChain.ChangedPasswordLeavesCaller | internal/authentication/account.go:20-64 | after a changed password only the session of the caller is left |
| RefreshChain.EnrolmentLeavesCaller | internal/authentication/totp.go:97-146 | after enrolment only the session of the caller is left |
| Secrets.TotpStepExact | internal/authentication/secrets.go:75-96 | a code is accepted exactly when a non-negative factor of the window, later than the last one, produces it |
| Secrets.FindTotpStep | internal/authentication/secrets.go:75-96 | the loop with its early exit finds the factor the specification chooses; truncation stays in bounds and yields 31 bits |
| Secrets.UsedFactorNotAcceptedAgain | internal/authentication/secrets.go:75-96 | after a factor is recorded its code passes only as the code of a later factor |
| CodeUse.AcceptedCodeAdvances | internal/authentication/challenge.go:307-329 | an accepted code belongs to a factor of the window later than every one used before |
| CodeUse.FactorsStrictlyIncrease | internal/authentication/totp.go:121-128 | within one enrolment, from its own code on, the factors of accepted codes strictly increase |
| CodeUse.BackupCodeUsedOnce | internal/authentication/challenge.go:330-339 | over any run a backup code is accepted at most once |
| Secrets.PreimageInjective | internal/authentication/secrets.go:49-57 | two hash inputs with NUL-free kind and context are equal only if all their parts are |
| Secrets.PreimageNeedsNulFreeContext | internal/authentication/secrets.go:49-57 | without the NUL-free context two different inputs are fed to the MAC alike |
| Secrets.DomainsAreSeparate | internal/authentication/secrets.go:49-57 | tokens of different kinds, or of different contexts, never share a hash input |
| Secrets.BigEndianRoundTrip | internal/authentication/secrets.go:75-96 | the eight-byte moving factor reads back as it was written |
| Secrets.SixDigitsRoundTrip | internal/authentication/secrets.go:75-96 | six decimal digits read back as the number they show |
| Limiter.ActivationLimiter.Allow | internal/authentication/limiter.go:21-47 | evicts, judges and counts in place; answer and table are those of the specification |
| Limiter.BoundedRefinesUnbounded | internal/authentication/limiter.go:21-47 | every answer is that of an unbounded limiter on the tries that found room; the others are refused and leave no trace |
| Limiter.RateBound | internal/authentication/limiter.go:21-47 | at most nineteen tries of an account are granted in any half-open five minutes, at most ten in a window |
| Limiter.RateBoundIsTight | internal/authentication/limiter.go:21-47 | nineteen are reached |
| Limiter.TableIsBounded | internal/authentication/limiter.go:27-37 | the table never exceeds ten thousand entries |
| Delivery.Worker.One | internal/outbox/worker.go:72-120 | one turn: the first row leaves the outbox only when its publish was confirmed and not returned |
| Delivery.Worker.RunConnection | internal/outbox/worker.go:34-71 | turns follow one another until one fails, and every publish starts with no return left over |
| Delivery.NothingIsLost | internal/outbox/worker.go:34-120 | with any number of workers and a failure at any point every enqueued event is still queued or was confirmed and not returned, no two workers hold one event, and no channel is used with something stale on it |
| Feeding.QueuedIsDelivered | internal/outbox/worker.go:34-120 | whatever clients and workers do, with failures at any point, every message that a transaction of the engine queued still waits in the outbox on its own exchange or was confirmed and not returned |
| Delivery.RemovedWasConfirmed | internal/outbox/worker.go:99-120 | an event leaves the outbox only by a commit after its confirmation |
| Delivery.FailureRequeues | internal/outbox/worker.go:72-120 | a failure while an event is held leaves it to be delivered again |
| Delivery.ServedInOrder | internal/outbox/worker.go:81 | what a worker leaves of its queue is a tail of it |

## Left out

- Step type and method names: the two strings for a kind of step are one value, so their translation is not modelled.
- Reads that change nothing (`Get`, `GetChallenge`, `GetTotp`, `GetBackupCodes`, `GetPasskeys`, `GetIdentities`, `GetSessions`, `ValidateSession`, `UsernameAvailable`) and `RenamePasskey`: easy members.
- Columns that are only written: creation and change timestamps, addresses and user agents of sessions, passkey names, transports, sign counts and backup flags, and the bodies of mails beyond recipient, template and secret.
- Access tokens: `Refresh` and `CreateSession` give the account, the session and the refresh token; signing is not modelled.
- Encryption of secrets at rest, the timing of the dummy password check, and randomness.
- Lock timeouts, cancelled contexts and lost connections: they roll back, which is a call that does not happen; raw database errors are one error value.
- A unique-key conflict on insertion of an account is found by looking for the address first, which is the same under the advisory lock.
- A login that matches an address of one account and the username of another finds the account with the smaller id; the query of the source leaves the choice open.
- CleanedRuns.CleanupIsNeutral: compares acceptance and answers, not which error a refusal carries, because a session that expired is reported as missing once it is collected and as forbidden before.
- Delivery.Worker.One: the broker's part is one of three outcomes for each publish, because only they reach the worker; routing keys, message properties and reconnect delays are not modelled.
- Concurrent access to the limiter: its mutex makes each call atomic, so calls are taken one after another.
- The legacy service tree, the network adapters, the gRPC layer, configuration and logging.
