# Identiti: a verified model of the authorisation rail and its stores

Identiti issues and spends authority. A customer or an operator is challenged
(a one-time code, a WebAuthn assertion); an answered challenge becomes a step-up token whose
`jti` is the challenge's identifier (section 4.1.7 of RFC 7519); the token is spent once, by a
phone change or by a delegated-authority signing. Around that sit the customer store with its
phone-hash index and tier history, the consent grants with their events, the hash-chained audit
log and the rider verification store. This project models that logic in Dafny and proves what
holds over all inputs, all runs and all interleavings.

## How the model is built

Identifiers are natural numbers, instants are milliseconds, error codes and cancel reasons are
enumerations of their wire words. Every repository is a class that updates its rows in place;
each of its methods is proved equal to a function on values (`WithAttempt`, `WithConsumed`,
`WithPhone`, …), and the theorems are about those functions. Where the in-memory and the
Postgres repositories differ, rows and scan order are those of the in-memory one and the
constraints are those of the schema: a violated primary key or UNIQUE constraint leaves the
table unchanged and ends the handler with a 500.

Two levels of atomicity:

- `Interleaving*`: one repository call is one step, a request is a process holding what it
  read, and a run is any sequence of steps. Locks and conditional updates are the atomic
  functions of the stores. `InterleavingSafety` and `InterleavingAttempts` hold what every
  interleaving keeps, `InterleavingSerial` what it takes for a token's challenge to be
  consumed, `InterleavingWitnesses` the runs that show the bounds are attained.
  `PhoneInterleaving` does the same for initiate and confirm over the customer store.
- `Rail*`: one handler is one step with one reading of a clock that never goes back. `Rail`
  states the handlers as functions, `RailRoutes` writes them as methods over the
  repositories and proves each method equal to its function, `RailAuthority`,
  `RailPhoneChanges`, `RailRecords` and `RailInvariants` prove what each elementary change
  keeps, `RailServe` composes them request by request, and `RailTheorems`, `RailHistory` and
  the `Outcomes` modules hold the results: the latter say, in wire words and literal seconds, when
  each request succeeds, what it then does, and why it is refused. `RailRefinement` proves
  that every run of atomic handlers is one of the interleavings, and `PhoneRefinement` relates
  the two levels of the phone-change handlers.

Assumptions, all explicit in the statements: whoever presents a token that verifies under a key
of the verifier was handed it by the service (`Rail.Presentable`); decryption inverts encryption
(sections 2.1 and 2.2 of RFC 5116); clock readings do not decrease. The verdict of a one-time
code, of a WebAuthn assertion and of an outside registry is an arbitrary boolean. Hashes are
arbitrary functions; only two audit theorems ask that given logs show no collision.
The invariants are never assumed of a run: they are proved of every one.

## Where the code does not do what is written about it

- "Max 3 attempts then invalidate" (`src/services/otp.ts:5`): with up to k requests in flight
  on one challenge the count can reach k + 2, and does for every k
  (`InterleavingAttempts.AttemptsBounded`, `InterleavingWitnesses.BoundIsAttained`).
- A token can be stored for a challenge that has meanwhile failed, with two requests in
  flight on it (`InterleavingWitnesses.TokenOfAFailedChallenge`); with at most one in flight its
  challenge is always consumed (`InterleavingSerial.SerialTokensAreConsumed`), and with any
  number exactly when the first call that closed it recorded a success
  (`InterleavingSerial.ConsumedExactlyWhenTheFirstClosingSucceeded`).
- Nothing locks an account between the cooldown check and the swap, and no index keeps its
  active changes apart: two overlapping initiates swap twice at one instant, or leave two
  active changes (`PhoneInterleaving.TwoRequestsSwapTwice`,
  `PhoneInterleaving.TwoRequestsLeaveTwoActive`). One phone-change request of the account at a
  time is enough to exclude both (`PhoneInterleaving.OneRequestAtATimeKeepsTheCooldown`).
- `expired` is reported only when the expired token's key is the last of the key list
  (`StepupVerifier.ExpiredExactlyWhen`); with the one key the service is wired with that is always.
- A correct confirmation ends in a 500 with its challenge consumed and its change still active
  exactly when another account has taken the number in the meantime
  (`RailTheorems.CorrectAnswerCompletesExactlyWhenFree`, `RailTheorems.AwaitedNumberCanBeTaken`).
- The in-memory `swapPhone` breaks the phone-hash index exactly when another account holds the
  number; the schema's UNIQUE constraint is what prevents it
  (`Customers.UnguardedSwapKeepsIndexExactly`).
- A one-phone change is created `completed`, so `complete` never applies and its completion
  time stays empty (`RailTheorems.ChangeMachine`).
- A consumer that replays consent events in order ends with a revoked grant when a revocation
  was published before its granting (`ConsentEvents.OrderedReplayIsExact`,
  `ConsentEvents.RevokeOvertakesGrant`).
- The audit log is a line only while timestamps follow lock order
  (`AuditChain.LinearExactlyWhenTimestampsFollowTheLock`, `AuditChain.LateLockForks`), and its
  hash covers no actor, resource, outcome or time (`AuditChain.UncoveredColumnsAreUnprotected`).
  Its joined input decodes as long as ids, app ids and actions hold no separator
  (`AuditChain.HashInputDecodes`, `AuditChain.SeparatorInAnAppIdIsAmbiguous`).
- `decrypt` refuses the encryption of the empty text, and of nothing else
  (`PhoneCrypto.RoundTrip`).

## Model

| member | source | states |
|---|---|---|
| RailTheorems.SwapsAreADayApart | src/routes/phoneChange.ts:155-249 | in every run two swaps of one account's number are at least 24 hours apart, although confirm never reads the cooldown |
| RailTheorems.EverySwapWasAuthorised | src/routes/phoneChange.ts:118-138 | every swap goes back, injectively, to a spent `identiti.phone_change` token of the same account and from it to its own consumed, correctly answered challenge bound to that account and operation |
| RailTheorems.SwapsAreTheCompletedChanges | src/routes/phoneChange.ts:220-264 | swaps and completed changes correspond one to one, and no two changes share an authorising token |
| RailTheorems.ChangeMachine | src/routes/phoneChange.ts:211-325 | at most one active change per account; a two-phone change owns a challenge with its account and deadline; a failed challenge means a cancelled change, a completed two-phone change a consumed challenge; a one-phone change is completed from the start with no completion time |
| RailTheorems.TerminalStatesAbsorb | src/repositories/phoneChanges.memory.ts:45-62 | completed and cancelled changes, non-pending challenges and spent tokens never change again in the rest of a run |
| RailTheorems.RunAdvances | src/routes/phoneChange.ts:415-557 | between any two points of a run challenges, tokens, changes and signings only move forward, and topics only grow |
| RailTheorems.ReplayReconstructs | src/routes/customers.ts:221-233 | replaying the account events, rejecting any from-value that differs from the value just before, yields every account's state and tier |
| RailTheorems.PhoneEventsChain | src/routes/phoneChange.ts:559-572 | per account the PHONE_CHANGED events link old hash to new hash, end at the bound hash and lead back to the hash held before the first of them |
| RailTheorems.IndexAndCiphertextsAgree | src/repositories/customers.memory.ts:49-144 | in every run index and stored hashes are inverse, and the ciphertext of every account and change row opens to a canonical number with the stored hash |
| RailTheorems.TiersPartitionTime | src/repositories/customers.memory.ts:155-193 | in every run exactly one assignment covers each instant from an account's creation on, the first is tier_0, and `getTier` reports the last in tier, start and reason |
| RailTheorems.RunKeepsInv | src/routes/phoneChange.ts:75-604 | the whole invariant holds after every run of requests of every kind |
| RailTheorems.CorrectAnswerCompletesExactlyWhenFree | src/routes/phoneChange.ts:535-557 | a correct answer completes the change if and only if the account is there and no other one holds the number; with the number taken it is a 500 that leaves the challenge consumed and nothing else changed, with the account gone the change is cancelled |
| RailTheorems.AwaitedNumberCanBeTaken | src/routes/customers.ts:138-160 | from any such state a customer creation takes the awaited number and strands the change |
| RailOutcomes.InitiateSucceedsExactlyWhen | src/routes/phoneChange.ts:106-209 | initiate succeeds if and only if a genuine, unspent token of this account and operation is presented, the cooldown is over, and the number is well formed, new and unclaimed |
| RailOutcomes.InitiateDoes | src/routes/phoneChange.ts:211-325 | a successful initiate spends the token, cancels the account's active change, and by its method binds the number with a 24-hour cooldown and one event, or leaves a pending challenge and an active change with one deadline ten minutes away |
| RailOutcomes.InitiateRefusals | src/routes/phoneChange.ts:106-209 | each refusal of initiate is given exactly when its reason is the first to apply, binds nothing, and spends the token exactly when the token was accepted |
| RailOutcomes.ConfirmSucceedsExactlyWhen | src/routes/phoneChange.ts:535-602 | in reachable states a confirm succeeds if and only if the change waits in time with its challenge pending, the code is right, the account is there and no other one holds the number; it then binds the number, completes the change, consumes the challenge and tells one event, and nothing else ever does |
| RailOutcomes.ConfirmRefusals | src/routes/phoneChange.ts:413-533 | a wrong code is a 401 that counts the failure, the third one cancelling the change; an overdue change is a 410 that cancels it; the unknown, finished and stranded changes get 404, 409 and 401 |
| RailTokenOutcomes.VerifyMintsExactlyWhen | src/routes/stepup.ts:448-692 | verify mints if and only if the challenge is a pending, unexpired, well-bound step-up and the answer is of the right kind and correct; the row and the signed token repeat the challenge claim by claim and live 600, 300, 180 or 60 seconds by its risk tier |
| RailTokenOutcomes.VerifyRefusals | src/routes/stepup.ts:465-649 | the answer and the recorded attempt for each reason to mint nothing |
| RailTokenOutcomes.MintedTokenLivesAsItsRow | src/services/stepupVerifier.ts:68-106 | a token minted for a phone change opens an initiate of its account from the second of its issue until the second its row runs out, and at no other time |
| RailTokenOutcomes.TokensLiveAsTheirRows | src/services/jwtSigner.ts:141-174 | in every run, whether a phone-change token handed out is accepted at an instant depends on the account, audience, start and end of its stored row alone |
| RailTokenOutcomes.CustomerTokenIssuedExactlyWhen | src/routes/auth.ts:259-447 | a login yields a token if and only if its challenge is for login, pending, in time, has a code and an account that still exists, and the code is right; it is one 1800-second bearer token of that account for two audiences |
| RailTokenOutcomes.CustomerTokenRefusals | src/routes/auth.ts:260-387 | an overdue login expires with a 410, a wrong code is counted with a 401, a vanished account is a 404 with the challenge consumed |
| RailTokenOutcomes.AudienceTokenIssuedExactlyWhen | src/routes/customers.ts:456-537 | an audience token is handed out if and only if the audience is one of the two whitelisted rails, the lifetime is 60 to 3600 seconds (900 unless asked) and the account is active; each refusal has its reason |
| RailTokenOutcomes.SignSucceedsExactlyWhen | src/routes/internal.ts:76-204 | a signing succeeds if and only if app, account, step-up token, key, claims and every scope allow it; a refusal writes no ledger row and hands out no token |
| RailTokenOutcomes.SigningDoes | src/routes/internal.ts:138-204 | a signing hands out one token that repeats the request and whose own lifetime every scope permits, writes one ledger row with that lifetime, and spends the step-up token it names |
| RailTokenOutcomes.SignRefusals | src/routes/internal.ts:76-136 | the answer for each reason; a refusal changes at most the step-up token |
| RailTokenOutcomes.StepupChallengeCreatedExactlyWhen | src/routes/stepup.ts:148-342 | a step-up challenge is created if and only if the subject and factor fit the kind and the account is active or the operator admitted; it repeats the request and expires by its risk tier |
| RailTokenOutcomes.StepupChallengeRefusals | src/routes/stepup.ts:148-276 | the answer for a wrong subject, a wrong factor, an unknown and an inactive account |
| RailTokenOutcomes.AuthChallengeCreatedExactlyWhen | src/routes/auth.ts:121-179 | a login challenge is created if and only if the number is well formed and bound; it is that account's, bound to no operation, and open for ten minutes |
| RailCustomerOutcomes.CreateSucceedsExactlyWhen | src/routes/customers.ts:111-233 | with consent and a well-formed number, a free number makes a new `pending_onboarding`, `tier_0` account, one the same app registered is re-linked, and any other is refused; only the first changes anything |
| RailCustomerOutcomes.TransitionSucceedsExactlyWhen | src/routes/operator.ts:115-225 | activate, suspend and reactivate each move along their own arrows between the named states, tell both ends, and refuse everything else unchanged |
| RailCustomerOutcomes.OverrideSucceedsExactlyWhen | src/routes/operator.ts:543-576 | an override sets the tier of an existing account and tells the tier it had |
| RailCustomerOutcomes.IprsPromotesExactlyWhen | src/routes/kyc.ts:270-289 | a verified lookup promotes a `tier_0` account to `tier_1` for `iprs_verified`, and no other account |
| RailCustomerOutcomes.ApprovalPromotesExactlyWhen | src/routes/operator.ts:349-373 | an approval promotes a `tier_0` account to `tier_1` for a `tier_1` record, and does nothing else |
| RailCustomerOutcomes.OnlyTheirRequestsTouchAccounts | src/repositories/customers.memory.ts:128-193 | over all requests, a state changes only by a transition of its kind, a tier only by an override or a first promotion, a number and its cooldown only by an initiate or a correct confirm of that account, and accounts are only ever added, as new |
| RailCustomerOutcomes.AccountsStayInThreeStates | src/routes/operator.ts:202-225 | in every run an account is waiting for onboarding, active, or frozen by an operator |
| RailCustomerOutcomes.FrozenUntilReactivated | src/routes/operator.ts:212-225 | a frozen account stays frozen for as long as no operator reactivates it, whatever else happens |
| RailAuthority.BearerTokensNeverInitiate | src/services/jwtSigner.ts:111-139 | a token without an operation, such as every customer and audience token of the same key, changes nothing at initiate and is answered 401 |
| RailAuthority.AcceptedTokensAreBacked | src/services/stepupVerifier.ts:108-119 | a token the verifier accepts and the service issued has a stored row for this account, operation and audience |
| RailAuthority.MintKeepsTokens | src/routes/stepup.ts:651-688 | minting starts from a challenge without a token and leaves every row a field-by-field copy of a consumed, answered, well-bound challenge and every signed token a claim-by-claim copy of its row, expiry included |
| RailAuthority.SpendingYieldsUnusedToken | src/repositories/stepUpTokens.ts:37-44 | a token whose consumption succeeds has authorised nothing before |
| RailPhoneChanges.FailureKeepsChangeInv | src/routes/phoneChange.ts:489-499 | failing a challenge and cancelling its change keeps the machine: no other change depends on that challenge |
| RailPhoneChanges.SupersedeKeepsChangeInv | src/routes/phoneChange.ts:211-215 | superseding leaves the account without an active change and completed changes untouched |
| RailPhoneChanges.SwapKeepsCoolInv | src/repositories/customers.memory.ts:128-144 | a swap made past the cooldown keeps swaps a day apart and every active change past its account's cooldown |
| RailRecords.SwapKeepsOrigins | src/routes/phoneChange.ts:251-264 | a swap with its event leaves the beginning of every account's chain of hashes where it was |
| RailRecords.NormalisedSealsHash | src/routes/phoneChange.ts:170-209 | what a handler stores for an accepted number opens to a canonical number with the stored hash |
| RailInvariants.ActiveIsPastCooldown | src/routes/phoneChange.ts:415-557 | an active change is past its account's cooldown whenever it is confirmed |
| RailServe.ServeKeepsInv | src/routes/phoneChange.ts:75-604 | every admissible request of every handler keeps the invariant |
| RailServe.ConfirmOutcome | src/routes/phoneChange.ts:415-472 | in reachable states confirm does nothing, cancels an overdue change, or puts the answer to the change's own challenge |
| RailHistory.ServeAdvances | src/repositories/authChallenges.ts:107-137 | no request of any kind undoes a terminal row, a ledger row or a published event, or moves the beginning of a hash chain |
| RailRefinement.AtomicRunsAreInterleavings | src/routes/stepup.ts:448-692 | every run of atomic handlers is the interleaving in which each request makes its own repository calls in one piece, with the same challenges, tokens, changes and signings |
| RailRefinement.ServeSteps | src/routes/phoneChange.ts:140-325 | from any state, the repository calls of a request, listed branch by branch in the order its handler makes them, end in the rows of its atomic step |
| RailRoutes.PhoneChangeRoutes.InitiateChange | src/routes/phoneChange.ts:77-384 | the handler, call by call, does what the atomic initiate says |
| RailRoutes.PhoneChangeRoutes.Change | src/routes/phoneChange.ts:140-218 | the gates, the supersede and the choice of method do what the atomic step says |
| RailRoutes.PhoneChangeRoutes.SwapAndPublish | src/routes/phoneChange.ts:235-264 | swap, cancellation of a vanished record, and PHONE_CHANGED with the hash held before |
| RailRoutes.PhoneChangeRoutes.ConfirmChange | src/routes/phoneChange.ts:386-602 | the confirm handler, call by call, does what the atomic confirm says |
| RailRoutes.StepupRoutes.CreateChallenge | src/routes/stepup.ts:148-342 | challenge creation for an active account or an admitted operator |
| RailRoutes.StepupRoutes.Verify | src/routes/stepup.ts:448-692 | attempts, consumption, minting and storing in order |
| RailRoutes.StepupRoutes.Validate | src/routes/stepup.ts:746-756 | reports what `inspect` finds and changes no state |
| RailRoutes.AuthRoutes.CreateChallenge | src/routes/auth.ts:121-179 | a challenge for the account the phone hash is bound to |
| RailRoutes.AuthRoutes.IssueCustomerToken | src/routes/auth.ts:259-447 | the login state machine and the bearer token it ends in |
| RailRoutes.InternalRoutes.Sign | src/routes/internal.ts:69-204 | the delegated signing, with its step-up token spent before the signer is asked |
| RailRoutes.CustomersRoutes.Create | src/routes/customers.ts:111-233 | creation, and the re-link of a number the same app registered before |
| RailRoutes.CustomersRoutes.Transition | src/routes/operator.ts:115-164 | activate, suspend and reactivate with the event that reports both states |
| RailRoutes.CustomersRoutes.IssueAudienceToken | src/routes/customers.ts:456-537 | single-audience tokens for whitelisted rails and active accounts only |
| RailRoutes.TierRoutes.Assign | src/routes/operator.ts:543-576 | tier override with TIER_CHANGED |
| RailRoutes.TierRoutes.Iprs | src/routes/kyc.ts:270-289 | promotion from tier_0 on a verified lookup |
| RailRoutes.TierRoutes.Approve | src/routes/operator.ts:349-373 | promotion from tier_0 on an approved tier_1 record |
| InterleavingSafety.OneActionPerToken | src/services/stepupVerifier.ts:108-119 | in every interleaving the non-null token identifiers of all change and signing rows together are pairwise distinct and all spent |
| InterleavingSafety.TokensBelongToTheirRows | src/routes/internal.ts:120-204 | in every interleaving the token named by a change or a signing is stored and of that row's account, and the one of a change is for `identiti.phone_change` at Identiti |
| InterleavingSafety.ValidationChangesNothing | src/routes/stepup.ts:746-756 | taking the requests that only validate tokens out of a run leaves the same rows, the same attempt calls and every other request where it was |
| InterleavingSafety.OneTokenPerChallenge | src/repositories/stepUpTokens.memory.ts:17-29 | in every interleaving a stored token copies its no longer pending challenge, has exactly one subject, an operator exactly for `operator.*` kinds, and is returned by at most one request |
| InterleavingAttempts.AttemptsBounded | src/routes/stepup.ts:570-620 | with at most k requests in flight on a challenge its count never exceeds k + 2; it fails at 3 or more, and at exactly 3 when k is 1 |
| InterleavingAttempts.NoIncrementLost | src/repositories/authChallenges.ts:107-137 | in every interleaving the stored count is the number of increments requested up to the call that closed the challenge |
| InterleavingWitnesses.BoundIsAttained | src/routes/auth.ts:328-371 | the bound k + 2 is attained for every k |
| InterleavingWitnesses.TokenOfAFailedChallenge | src/routes/stepup.ts:651-688 | a run with at most two requests in flight on a challenge in which a token is stored and returned for it and it has failed |
| InterleavingSerial.SerialTokensAreConsumed | src/routes/stepup.ts:570-688 | in every interleaving with at most one request in flight on a challenge, a token stored for it means it is consumed |
| InterleavingSerial.ConsumedExactlyWhenTheFirstClosingSucceeded | src/repositories/authChallenges.ts:107-137 | in every interleaving the challenge of a stored token is consumed if and only if the first recordAttempt call that closed it recorded a success |
| InterleavingSerial.StatusIsTheFirstClosing | src/repositories/authChallenges.ts:107-137 | in every interleaving a challenge is pending until a call closes it and then has the status of the first call that did |
| PhoneInterleaving.OneRequestAtATimeKeepsTheCooldown | src/routes/phoneChange.ts:155-249 | in every interleaving of repository calls in which never more than one phone-change request of an account is past its first read, its swaps are 24 hours apart and at most one of its changes is active, whatever other accounts do |
| PhoneInterleaving.TwoRequestsSwapTwice | src/routes/phoneChange.ts:211-249 | two overlapping initiates of one account that swap its number twice at one instant |
| PhoneInterleaving.TwoRequestsLeaveTwoActive | src/routes/phoneChange.ts:211-325 | two overlapping initiates of one account that leave it two active changes |
| PhoneRefinement.UninterruptedInitiate | src/routes/phoneChange.ts:140-325 | the repository calls of an initiate past its gates, made without interruption, do what the atomic handler does to customers, changes and swaps |
| PhoneRefinement.UninterruptedConfirm | src/routes/phoneChange.ts:386-602 | so do those of any confirm in a reachable state |
| AuthChallenges.AuthChallengesRepo.RecordAttempt | src/repositories/authChallenges.memory.ts:48-58 | the locked update, absorbing outside `pending` |
| StepUpTokens.StepUpTokensRepo.Create | src/repositories/stepUpTokens.memory.ts:17-29 | one row per `jti` |
| StepUpTokens.StepUpTokensRepo.MarkConsumed | src/repositories/stepUpTokens.memory.ts:36-42 | true exactly for the call that finds the row unspent |
| StepUpTokens.DelegatedAuthoritySigningsRepo.Create | src/repositories/delegatedAuthoritySignings.memory.ts:12-21 | one row per `jti` |
| PhoneChanges.PhoneChangesRepo.FindActiveForAccount | src/repositories/phoneChanges.memory.ts:33-44 | the loop returns the first active row of the account, and none only if there is none |
| PhoneChanges.PhoneChangesRepo.Complete | src/repositories/phoneChanges.memory.ts:45-51 | completes an awaiting row and nothing else |
| PhoneChanges.PhoneChangesRepo.Cancel | src/repositories/phoneChanges.memory.ts:52-62 | cancels an active row and nothing else |
| StepupRequests.AcceptedRequestsAreBound | src/routes/stepup.ts:151-293 | the subject and factor rules accept a request exactly when the challenge stored for it is well bound |
| StepupRequests.OnlyBoundChallengesProceed | src/routes/stepup.ts:570-649 | whatever route created a challenge, verify mints only from a well-bound one and only on a correct answer of the right kind |
| StepupVerifier.AcceptedExactlyWhen | src/services/stepupVerifier.ts:68-106 | a token is accepted if and only if one of the keys signed it and every claim holds, whatever the order of the keys |
| StepupVerifier.ExpiredExactlyWhen | src/services/stepupVerifier.ts:83-94 | `expired` is reported if and only if the last key signed the token and expiry is its only fault |
| StepupVerifier.InvalidExactlyWhen | src/services/stepupVerifier.ts:83-106 | wrong subject, wrong operation and a missing identifier are reported exactly of tokens that are otherwise sound, and a token no key signed is a bad signature |
| StepupVerifier.ExpiryMaskedByALaterKey | src/services/stepupVerifier.ts:71-82 | two keys and an expired token of the first that is reported as a bad signature |
| StepupVerifier.StepupVerifier.Inspect | src/services/stepupVerifier.ts:68-106 | the key loop computes the verdict and writes nothing |
| StepupVerifier.StepupVerifier.Verify | src/services/stepupVerifier.ts:110-119 | a valid token is consumed, and one that was consumed before is a replay |
| Customers.CustomersRepo.Create | src/repositories/customers.memory.ts:49-89 | account, index entry and first assignment together, or a collision |
| Customers.CustomersRepo.SwapPhone | src/repositories/customers.memory.ts:128-144 | the guarded swap of number, ciphertext, cooldown and index entry |
| Customers.CustomersRepo.ChangeState | src/repositories/customers.memory.ts:146-153 | the conditional transition, reporting the state it found |
| Customers.CustomersRepo.SetTier | src/repositories/customers.memory.ts:172-193 | closes the open assignment and appends the new one, reporting the tier it found |
| Customers.CreateKeepsIndex | src/repositories/customers.memory.ts:49-80 | creation keeps index and accounts inverse to each other |
| Customers.SwapKeepsIndex | src/repositories/customers.memory.ts:128-144 | the guarded swap keeps index and accounts inverse to each other |
| Customers.UnguardedSwapKeepsIndexExactly | src/db/schema.ts:121-122 | without the UNIQUE constraint the swap keeps the index if and only if no other account holds the number |
| TierTimeline.EveryInstantHasOneTier | src/repositories/customers.memory.ts:172-193 | each instant from creation on is covered by exactly one assignment, earlier ones by none |
| TierTimeline.PresentTierIsTheOpenOne | src/repositories/customers.memory.ts:155-163 | only the last assignment is open, it covers the present, and `getTier` reports it |
| TierTimeline.SetTierKeepsTimelines | src/repositories/customers.memory.ts:172-193 | a tier change extends every account's chain without gap or overlap |
| TierPaging.WalkIsExact | src/repositories/customers.memory.ts:195-222 | following cursors to the end returns exactly the assignments present at the first page, each once and newest first, for all limits and whatever later tier changes happen between pages; the walk ends |
| TierPaging.NewestFirstSorts | src/repositories/customers.memory.ts:199-203 | the listing is a permutation of the account's assignments, newest first |
| TierPaging.PageResumes | src/repositories/customers.memory.ts:204-221 | a page resumed with a cursor shows the original listing from that entry on, though entries were added in front |
| TierPaging.PageHasAskedLength | src/repositories/customers.memory.ts:195-212 | a page with a successor has exactly the limit asked for, held between 1 and 200, else 50 |
| TierPaging.LaterClockIsLater | src/repositories/customers.memory.ts:172-193 | a write at a later clock reading meets what `WalkIsExact` asks of the writes between pages |
| ConsentGrants.ConsentGrantsRepo.FindOpen | src/repositories/consentGrants.memory.ts:20-32 | the loop finds the first open grant of account, app and scope, and none only if there is none |
| ConsentGrants.ConsentGrantsRepo.Create | src/repositories/consentGrants.memory.ts:35-53 | a new open grant, or the one already open |
| ConsentGrants.ConsentGrantsRepo.Revoke | src/repositories/consentGrants.memory.ts:74-82 | revokes an open grant once |
| ConsentEvents.TopicTracksTable | src/routes/consent.ts:98-146 | in every interleaving at most one grant is open per account, app and scope, table and topic differ about a grant only while one of its own events is unpublished, and agree once none is |
| ConsentEvents.OrderedReplayIsExact | src/routes/consent.ts:243-279 | replaying in order is exact if and only if no revocation was published before its granting |
| ConsentEvents.RevokeOvertakesGrant | src/routes/consent.ts:265-279 | a run in which that happens |
| ConsentRoutes.ConsentRoutes.Grant | src/routes/consent.ts:90-146 | the grant handler served alone: row, then event, with its answers |
| ConsentRoutes.ConsentRoutes.Revoke | src/routes/consent.ts:242-279 | the revoke handler served alone: row, then event, with its answers |
| ConsentRoutes.GrantSucceedsExactlyWhen | src/routes/consent.ts:98-165 | a grant is made if and only if none is open for the account, app and scope; it is stored as asked, and a conflict names the open one |
| ConsentRoutes.RevokeSucceedsExactlyWhen | src/routes/consent.ts:243-299 | an open grant is revoked once, with who, why and when; an unknown one is a 404 and a revoked one a 409 |
| ConsentRoutes.ServedKeepsExactReplay | src/routes/consent.ts:133-146 | handlers served one after the other keep an in-order consumer exactly at the open grants |
| AuditChain.HashInputDecodes | src/services/auditLogger.ts:68-79 | the joined hash input decodes to its five parts although the detail may hold separators |
| AuditChain.LastHashFixesTheLog | src/services/auditLogger.ts:68-79 | two valid logs with one last hash agree in length and in id, app id, action and detail everywhere, unless they exhibit a collision |
| AuditChain.UncoveredColumnsAreUnprotected | src/services/auditLogger.ts:130-148 | actor, resource, outcome and time can be rewritten without any link noticing |
| AuditChain.EveryRunHasOneRoot | src/services/auditLogger.ts:114-151 | in every run of concurrent appenders there is one root and every other entry names an earlier one |
| AuditChain.LinksReachTheRoot | src/services/auditLogger.ts:118-123 | in every run whose entries have distinct hashes, following stored previous hashes from any entry meets no entry twice and can always go on until it is at the root, after at most as many steps as there are earlier entries |
| AuditChain.NoCollisionKeepsHashesDistinct | src/services/auditLogger.ts:68-79 | entries of an appended log have distinct hashes unless two of them exhibit a collision |
| AuditChain.LinearExactlyWhenTimestampsFollowTheLock | src/services/auditLogger.ts:114-151 | with distinct timestamps the log is a line if and only if all but the last follow lock order |
| AuditChain.OrderedTimestampsGiveAValidChain | src/services/auditLogger.ts:114-151 | in lock order the log is one chain that passes the link check |
| AuditChain.LateLockForks | src/services/auditLogger.ts:115-123 | three appends after which two entries name one previous hash |
| AuditChain.DbAuditLogger.Append | src/services/auditLogger.ts:114-151 | the locked append |
| RiderKyc.RunKeepsInv | src/routes/riderKyc.ts:146-280 | in every run verified artefacts with one licence or bike hash belong to one account, a submission is verified exactly when its artefacts are and expires with the first of them still to expire, its class is none, `rider_tier_1` or `rider_tier_2` exactly as some artefact is rejected, none of all is insurance, or one is, and the rider class is that of the latest verified submission |
| RiderKyc.CollisionChangesNothing | src/repositories/riderKyc.memory.ts:21-50 | a submission is refused if and only if another account holds one of its verified documents, and then nothing changes |
| RiderKyc.SubmissionStoresItsDocuments | src/routes/riderKyc.ts:170-237 | a submission stores one artefact per document with its verdict, hash and expiry, insurance only if there is one |
| RiderKyc.EarliestFutureIsLeast | src/routes/riderKyc.ts:387-392 | the least of the dates still to come, if any |
| RiderKyc.RiderKycRepo.Create | src/repositories/riderKyc.memory.ts:21-86 | all or nothing, with the uniqueness loop |
| RiderKyc.RiderKycRoutes.Submit | src/routes/riderKyc.ts:146-280 | verdict, class, artefacts and rider class of a submission |
| DelegatedAuthority.SignedExactlyWhenEveryScopeAllows | src/services/delegatedAuthoritySigner.ts:99-200 | a claim set is signed if and only if its key and claims are right and each scope permits its positive lifetime: 3600 seconds for money, 900 for identity, 86400 for the rest |
| DelegatedAuthority.SignedTokenRepeatsRequest | src/services/delegatedAuthoritySigner.ts:171-200 | whatever is signed carries a delegated-authority key of the name asked for and the claims asked for, so that every scope permits the token's own lifetime |
| DelegatedAuthority.SignRefusalsAreTruthful | src/services/delegatedAuthoritySigner.ts:99-169 | the error code of a refusal names a check that fails |
| DelegatedAuthority.TightestCapBounds | src/services/delegatedAuthoritySigner.ts:211-226 | the folded cap is a lower bound of the scopes' caps and is attained |
| DelegatedAuthority.TightestCapConcat | src/services/delegatedAuthoritySigner.ts:211-218 | the cap of a concatenation is the smaller of the two caps |
| DelegatedAuthority.TightestCapDependsOnTheSetOnly | src/services/delegatedAuthoritySigner.ts:211-218 | order and repetition of scopes do not matter |
| DelegatedAuthority.JointRequestIsNoLooser | src/services/delegatedAuthoritySigner.ts:151-170 | a joint request is signed if and only if both parts would be |
| DelegatedAuthority.DelegatedAuthoritySigner.MaxTtlForScopes | src/services/delegatedAuthoritySigner.ts:211-218 | the loop computes the fold |
| DelegatedAuthority.DelegatedAuthoritySigner.Sign | src/services/delegatedAuthoritySigner.ts:99-200 | the checks in their order |
| PhoneNormalise.Preimage | src/domain/phoneNormalise.ts:16-23 | a text normalises to n if and only if n is canonical and the text, stripped, is one of its four spellings |
| PhoneNormalise.FourSpellings | src/domain/phoneNormalise.ts:16-23 | the spellings of a canonical number are four and all normalise to it |
| PhoneNormalise.SeparatorsAreIgnored | src/domain/phoneNormalise.ts:16-23 | inserting a space, dash or parenthesis anywhere changes nothing |
| PhoneNormalise.Idempotent | src/domain/phoneNormalise.ts:16-23 | normalising twice is normalising once |
| PhoneCrypto.RoundTrip | src/services/phoneCrypto.ts:58-77 | decrypting an encryption gives the text back if and only if it is not empty |
| PhoneCrypto.EnvelopeOpens | src/services/phoneCrypto.ts:47-77 | the envelope, over any authenticated cipher that inverts itself, opens what it sealed, for every text but the empty one: the law the phone records rest on |
| PhoneCrypto.EnvelopeLayout | src/services/phoneCrypto.ts:58-64 | an envelope is 12 bytes of IV, 16 of tag and a ciphertext as long as the text |
| PhoneCrypto.EncryptIsInjective | src/services/phoneCrypto.ts:58-64 | equal envelopes hold equal texts |
| PhoneCooldown.RemainingIsLeastWait | src/domain/phoneCooldown.ts:25-41 | the seconds reported are the least whole number after which the cooldown is over |
| PhoneCooldown.CooldownRunsADayOrAWeek | src/domain/phoneCooldown.ts:14-28 | a change starts a cooldown of 24 hours, of seven days with an active balance |

## Left out

- HTTP, JSON schemas, identifier patterns, scopes, headers and the shape of successful answers: inputs arrive well formed, and an answer is its status and error code.
- Ciphers, digests, bcrypt, base64 and JOSE themselves: functions with stated laws, tokens as records, verdicts as booleans.
- Kafka delivery, database drivers, retries and crashes between two calls of an atomic handler: a topic is a sequence.
- Audit rows, step-up events and KYC events written by the handlers: only the account, phone and consent topics have consumers whose state is at stake.
- Sessions, phone tokens, operator users, WebAuthn credentials and their counters, KYB and the KYC record store: their verdicts enter the handlers as parameters.
- Account events, chains of phone hashes and tier history under overlapping requests: proved for atomic handlers; overlapping ones are covered for challenges, tokens, changes, signings, swaps and cooldowns.
- Postgres tier-history paging (src/repositories/customers.ts:303-339): it seeks below the cursor's timestamp, which is not the documented next-item cursor; the in-memory paging is modelled.
- The active-balance cooldown of seven days: the handlers never ask for it.
- Object identity: repositories return copies in the source and values here, so aliasing of returned rows is not modelled.
- The text of identifiers: ULIDs are numbers whose order stands for their text order.
- PhoneCrypto.RoundTrip: says nothing about tampered envelopes, because rejection of forgeries is a property of the cipher.
