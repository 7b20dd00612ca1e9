# Splitch auth, analysis and CLI: a verified model

A Dafny model of the parts of splitch where order, time and concurrency decide what is right: the claim
ceremony, the rate limiters, refresh-token rotation and the CLI's credential file, membership scopes,
keyset paging, base64url and signed texts, positional arguments, replay windows, usage totals and the
terminal renderer. `dafny verify dfyconfig.toml` checks all of it.

## What is modelled

- **Claim ceremony** (`ClaimStore`, `ClaimCeremony`, `ClaimInvariant`, `ClaimSteps`, `ClaimSafety`,
  `ClaimTheorems`, `ClaimTransfer`,
  `ClaimRace`, `ClaimStray`, `ClaimRecovery`, `ClaimAnswers`). The D1 statements as functions on tables,
  and `verifyClaim` as a program counter that makes one awaited call per step. Any number of calls run at
  once beside initiation, consent, retention, other owners of the email, lost replies, faults and crashes.
- **Rate limiters** (`RateLimit`, `DurableLimit`, `LimitRefinement`, `LimitBound`, `LimitRefusals`, `LimitLru`). Both
  limiters as classes that update in place, the policy they share, how much a fixed window lets through,
  and what the bounded map forgets.
- **Scopes and membership** (`Scopes`, `ScopeMeet`, `MembershipLookup`). Printing, parsing and narrowing
  scopes, and resolving App and Organization selectors.
- **Device sessions** (`SessionStore`, `DeviceRefresh`, `DeviceLogin`, `SessionChain`, `SessionEnds`). The storage
  encoding, the refresh grant with an outage at any step, and chains of rotations over whole runs.
- **CLI credentials** (`CliCredentials`, `CliAuth`, `CliOutcomes`, `BindingLabels`, `CliServerRuns`, `BackfillSticks`). The
  credential file, commands that reuse or mint tokens, the truth of binding labels in whole runs of server and
  CLI, and the email backfill.
- **Paging and codecs** (`AppAudit`, `AuditPaging`, `Base64Url`, `SignedTexts`).
- **Smaller cores** (`Positionals`, `ReplayWindows`, `Usage`, `Renderer`, `RendererControls`, `RendererLines`,
  `RendererReadings`).

`Wrappers` holds the optional value and one fact about set sizes.

## Assumptions

- Hashes are injective, so tables hold the identifiers themselves; random ids and tokens are fresh; ISO
  timestamps order as epoch milliseconds; a signature is a function of its text and secret.
- The email provider follows its fixture (`apps/auth-api/src/workos.ts:46-84`): a verified email belongs to
  one user permanently, and a code the provider accepts verifies it. Its refresh tokens are single-use and
  never issued twice, except that it may hand the presented one back.
- Each access token carries the serial of its signature, standing for its unique text. The directory a login or
  refresh resolves selectors in is the user's memberships at that moment. A CLI process loads only files some
  process wrote, and its wire carries a reply the server sent for that request, a refusal, or nothing.
- JSON, canonical JSON and UTF-8 read back what they wrote. The audit pipe filters, sorts and limits
  (`infra/tinybird/pipes/app_audit_events.pipe`), in the order the Worker compares in; event ids and
  timestamps are ASCII, where byte order and UTF-16 order agree. A time bound carries its own text and its
  moment in UTC.
- A KV entry is found until its time to live has passed and not after. The rate limiter's verdict inside the
  claim ceremony is a free choice; the two membership reads that run in parallel are one step.

## Findings

- `claim-transfer.ts:100-119` deletes the claimant's memberships wherever the recipient already has one. A
  claimant who proves their own email is the recipient and loses both memberships
  (`ClaimTransfer.SelfClaimLosesMembership`); `RecipientIsMember` gives the exact condition.
- `claim-verify.ts:30-31` reads the email's owner once. A call that read "nobody" can later meet a
  verification another call marked from a consent, skip the OTP and take the transfer without a counted
  attempt (`ClaimRace.ClaimantWinsUncounted`). `ClaimTheorems.ClaimantTransfersRestOnAttempts` shows that this
  branch, `verified_at` set by a consent while the owner read was no other user, is the only one.
- `claim-reservation.ts:112-133` marks the confirmation started by key alone. When the key has been reserved
  again for another verification in between, the claimant can receive the transfer on a verification without
  any attempt (`ClaimStray.ClaimantWinsOnAnotherVerification`). `AttemptIsOnItsOwnVerification` is exact: it
  takes a row that names another verification than its caller's, which the update does not ask.
- The comment at `device-refresh.ts:94-97` says a signing fault leaves no durable state. It leaves none in
  the store, but the provider has spent the presented token by then, so the client is left with a token
  that no longer works (`DeviceRefresh.SigningFaultStrandsTheClient`); `ClientKeepsAUsableToken` says exactly
  which requests, answers and outages do that.
- `packages/db/src/repo/identity.ts:190-201` refreshes only the provider session of a known token, so a pin
  is not acquired when the provider hands the presented token back
  (`SessionChain.PinIsAcquiredByANewTokenOnly`).
- `apps/cli/src/auth.ts:170-179` compares labels, while the server looks selectors up. A cached `app:X` token
  and a fresh lookup of X part once X is no longer reachable by id and another App is keyed X
  (`BindingLabels.ReuseAfterChange`); a cached `org:S` token and a fresh lookup of S part once slug S moves, or
  S becomes another Org's id (`OrgReuseAfterChange`, `SlugMovesToAnotherOrg`).
- `jti-cache.ts:7-9` says the entry lives as long as the token could be replayed. The clock is read before the
  issuer lookup and signature check, so a presentation that starts before the expiry and reads the cache
  after it is accepted again (`ReplayWindows.SlowReplayIsAccepted`); `JagIsAcceptedExactlyWhen` is exact over every history.
- The stored selector has a limit: an App id that reads as an old-form scope would come back as the id inside
  it (`SessionStore.LegacyLookalikeIsLost`). Nothing here says that such ids are issued.
- The renderer escapes values but not keys (`RendererControls.ControlKeyLeaks`).

## Model

| member | source | states |
|---|---|---|
| `ClaimSafety.RunKeepsInv` | apps/auth-api/src/claim-verify.ts:25-248 | Every interleaving of concurrent `verifyClaim` calls, initiations, consents, retention, new email owners, lost replies, faults and crashes keeps the ceremony's invariant: rows come from initiations and approvals, attempts are counted once per call, reservations and completions belong to their verification, and what each call remembers stays true. |
| `ClaimTheorems.TokensAreSound` | apps/auth-api/src/claim-verify-support.ts:64-108 | Every minted token follows a read of its Org's one completed, unexpired reservation; its user, App and Org are that reservation's and its audience is the resource fixed when the verification was initiated. |
| `ClaimTheorems.TokensAgree` | apps/auth-api/src/claim-verify.ts:30-51 | Any two tokens ever minted for one Org name the same user, App, audience and reservation, whichever calls minted them. |
| `ClaimTheorems.TransferIsFinal` | packages/db/src/repo/claim-transfer.ts:85-99 | Once an Org's transfer completes, no later step of any run redirects or undoes it. |
| `ClaimTheorems.TransfersAreAuthorised` | apps/auth-api/src/claim-verify.ts:99-217 | A completed transfer with a consent goes to the user who approved that unexpired consent on that verification and owns the email; without one it goes to the claimant, on a verification marked after a confirmation, by a reconciliation or from a consent. |
| `ClaimTheorems.RefusalIsFinal` | packages/db/src/repo/claim-state.ts:126-165 | Once a consent is refused, it is never approved at any later moment of any run, and no transfer ever rests on it. |
| `ClaimTheorems.ClaimantTransfersRestOnAttempts` | apps/auth-api/src/claim-verify.ts:30-217 | In every run, a call behind a transfer to the claimant (the one that completed it, the one that marked the verification, or the one whose attempt a reconciliation stands for) counted an attempt, and the provider vouched for it, exactly unless the completing call found `verified_at` set and a consent had set it. |
| `ClaimTheorems.AttemptIsOnItsOwnVerification` | packages/db/src/repo/claim-reservation.ts:112-133 | That attempt was counted on the transfer's own verification exactly when the code was confirmed on it, or the row that was reconciled named, when it was marked started, the verification its caller had counted on. |
| `ClaimTheorems.GuardedStartsSuffice` | packages/db/src/repo/claim-reservation.ts:112-133 | In every run whose updates of that kind all hit a row of their caller's own verification, every transfer to the claimant has its attempt on its own verification unless its call skipped the code on a consent's mark. |
| `ClaimRace.ClaimantWinsUncounted` | apps/auth-api/src/claim-verify.ts:166-217 | A concrete run in which the claimant receives the transfer with no counted attempt: an old read of the email's owner meets a verification marked from a consent. |
| `ClaimStray.ClaimantWinsOnAnotherVerification` | packages/db/src/repo/claim-reservation.ts:112-133 | A concrete run in which an attempt is counted on one verification, its key is reserved again for another, the row is marked started by key, and the claimant receives the transfer on the other, on which nothing was ever counted. |
| `ClaimTheorems.AtMostFiveConfirmations` | apps/auth-api/src/claim-verify.ts:182-191 | In every run the provider is asked to confirm at most five times per verification, across all concurrent calls, and only by calls that counted an attempt. |
| `ClaimTheorems.OneConfirmationPerCall` | apps/auth-api/src/claim-verify.ts:192-209 | A call about to ask the provider has never asked before and has counted its attempt. |
| `ClaimTransfer.RecipientIsMember` | packages/db/src/repo/claim-transfer.ts:100-119 | After an acquiring batch the recipient holds the Org and App memberships exactly when the recipient is not the claimant. |
| `ClaimTransfer.SelfClaimLosesMembership` | packages/db/src/repo/claim-transfer.ts:100-119 | A concrete store in which a claimant who proves their own email ends outside their own Org. |
| `ClaimTransfer.MovedAppMembers` | packages/db/src/repo/claim-transfer.ts:110-119 | Exactly which App memberships the delete and update of the batch leave behind. |
| `ClaimTransfer.OthersKeepMemberships` | packages/db/src/repo/claim-transfer.ts:100-119 | Nobody but claimant and recipient gains or loses a membership. |
| `ClaimTransfer.ClaimantIsMovedOut` | packages/db/src/repo/claim-transfer.ts:100-119 | The claimant keeps no membership of the claimed Org or its Apps. |
| `ClaimTransfer.FailedBatchChangesNothing` | packages/db/src/repo/claim-transfer.ts:85-161 | A batch that does not acquire the Org leaves every table as it was. |
| `ClaimRecovery.OpenClaimAnswers` | apps/auth-api/src/claim-verify.ts:42-247 | Every answer of a call that runs alone on an open claim. While a reservation of its key is in its lease: a token exactly when the confirmation was started and the provider has the email verified, else `invalid_request`. Otherwise: a token exactly when the verification is marked, or the call has an OTP, an attempt is left and the provider accepts the code; else `invalid_grant` with the key free again. |
| `ClaimRecovery.CompletedClaimReplays` | apps/auth-api/src/claim-verify.ts:42-51 | A completed reservation answers every same-key call with a token for the same user until its window closes, whether the claim went to the claimant or to the email's owner, with no new verdict of the provider or the rate limiter. |
| `ClaimRecovery.CrashRecovery` | apps/auth-api/src/claim-verify.ts:52-80 | A call starts on an open claim, makes any number of its awaited calls, each of which returns, loses its reply or throws, and stops anywhere. A same-key retry answers with a token if the claim completed and otherwise exactly as on an open claim; so inside the lease an accepted code whose reply was lost still ends in a token. |
| `ClaimAnswers.ConsentedClaimGoesToOwner` | apps/auth-api/src/claim-verify.ts:99-226 | A lone call for another user's email, with that user's live approved consent, ends in a token for that user, and all the tables are given: the Org acquired, its memberships theirs, the reservation completed, verification and consent spent. |
| `ClaimAnswers.UnconsentedClaimAsksTheOwner` | apps/auth-api/src/claim-verify.ts:101-119 | Without such a consent nothing moves: the call ends in `interaction_required` with one new consent row of 15 minutes for the owner, or in `too_many_requests` with none when the limiter refuses. |
| `ClaimAnswers.OutsiderIsRefused` | apps/auth-api/src/claim-verify.ts:81 | Whoever is not a member of Org and App is refused with `invalid_grant`; a lapsed reservation of the key is dropped and nothing else changes. |
| `ClaimAnswers.BadVerificationIsRefused` | apps/auth-api/src/claim-verify.ts:82-98 | A verification that is missing, foreign, consumed, expired or without a resource is refused with `invalid_grant`, a request for another resource with `invalid_request`, and nothing changes. |
| `ClaimAnswers.BusyKeyIsRefused` | apps/auth-api/src/claim-verify.ts:58-80 | A key whose reservation is in its lease and not started is refused with `invalid_request`, whoever owns the email, and no table changes. |
| `ClaimAnswers.ReplayForAnotherResourceIsRefused` | apps/auth-api/src/claim-verify.ts:42-51 | A completed claim is replayed for its own resource only. |
| `ClaimAnswers.LimitedClaimIsRefused` | apps/auth-api/src/claim-verify.ts:164-165 | A call the limiter refuses after it reserved its key ends in `too_many_requests`, frees the key and changes nothing. |
| `ClaimAnswers.TakenOrgIsRefused` | apps/auth-api/src/claim-verify.ts:217-241 | A marked claim for an Org that is not the claimant's provisional one any more ends in `invalid_grant`, frees the key and changes nothing. |
| `RateLimit.MemoryLimiter.SweepExpired` | apps/auth-api/src/rate-limit.ts:108-118 | In place, the sweep drops exactly the expired entries, at most once an hour, and keeps the rest in order. |
| `RateLimit.MemoryLimiter.DropExpired` | apps/auth-api/src/rate-limit.ts:114-116 | The deleting loop leaves exactly the live entries in their order. |
| `RateLimit.MemoryLimiter.Touch` | apps/auth-api/src/rate-limit.ts:120-123 | Delete then set moves the key to the end of the map. |
| `RateLimit.MemoryLimiter.SetBounded` | apps/auth-api/src/rate-limit.ts:125-132 | A touched map over its bound loses its first entry and nothing else; the first key always exists, so the inconsistency error cannot be reached. |
| `RateLimit.MemoryLimiter.AssertUnderCeiling` | apps/auth-api/src/rate-limit.ts:140-162 | One call on the in-memory limiter, state and decision, as one step on its value. |
| `DurableLimit.DurableLimiter.Admit` | apps/auth-api/src/auth-abuse-rate-limit-do.ts:47-67 | One admission on the table: purge, decide, upsert both windows or none. |
| `DurableLimit.DurableLimiter.Fetch` | apps/auth-api/src/auth-abuse-rate-limit-do.ts:32-40 | A request decides and leaves the alarm that belongs to the table. |
| `DurableLimit.DurableLimiter.Alarm` | apps/auth-api/src/auth-abuse-rate-limit-do.ts:42-45 | An alarm purges the expired rows and leaves the alarm that belongs to what remains. |
| `DurableLimit.DurableLimiter.ScheduleCleanup` | apps/auth-api/src/auth-abuse-rate-limit-do.ts:85-94 | No alarm for an empty table, else the moment the oldest row expires or now. |
| `DurableLimit.AlarmsEmptyTheTable` | apps/auth-api/src/auth-abuse-rate-limit-do.ts:42-94 | Alarms that fire on time each delete a row, so a table nobody calls is empty after as many alarms as it had rows. |
| `DurableLimit.AlarmIsPrompt` | apps/auth-api/src/auth-abuse-rate-limit-do.ts:85-94 | The alarm is due when the first row expires, neither before nor, unless the clock is already past that, after. |
| `DurableLimit.KeysApart` | apps/auth-api/src/auth-abuse-rate-limit-do.ts:53-55 | The global row and the per-address rows never share a key. |
| `LimitRefinement.MemoryFollowsPolicy` | apps/auth-api/src/rate-limit.ts:146-160 | One in-memory call follows the fixed-window policy on its live windows and stores exactly the counted ones. |
| `LimitRefinement.DurableFollowsPolicy` | apps/auth-api/src/auth-abuse-rate-limit-do.ts:47-67 | One durable request follows the same policy and stores the same windows. |
| `LimitRefinement.LimitersAgree` | apps/auth-api/src/auth-abuse-rate-limit-do.ts:42-67 | Started fresh, over every sequence of calls and cleanup alarms in order of time with at most `MAX_TRACKED_IP_WINDOWS` addresses, the two limiters give the same decision at every call. |
| `LimitRefinement.AlarmsAreInvisible` | apps/auth-api/src/auth-abuse-rate-limit-do.ts:42-45 | Cleanup alarms change no decision of the durable limiter, however many addresses call. |
| `LimitBound.DurableSlidingBound` | apps/auth-api/src/auth-abuse-rate-limit-do.ts:47-67 | In any half-open hour, wherever it starts, the durable limiter admits at most 2L-1 calls for a ceiling L, globally and for each address. |
| `LimitBound.MemorySlidingBound` | apps/auth-api/src/rate-limit.ts:101-106 | The in-memory limiter keeps the global 2L-1 bound for any number of addresses. |
| `LimitBound.BoundIsReached` | apps/auth-api/src/auth-abuse-rate-limit-do.ts:47-67 | For every ceiling a run in order of time reaches exactly 2L-1 admissions in one hour. |
| `LimitRefusals.RefusalsAreEarned` | apps/auth-api/src/auth-abuse-rate-limit-do.ts:47-67 | After any run a call is refused for the global ceiling only when that many calls were admitted in the hour up to it, and for its address only when that many of its own were; with room on both counts it is admitted. |
| `LimitLru.MapIsLru` | apps/auth-api/src/rate-limit.ts:120-132 | In every run the map has distinct keys, at most `MAX_TRACKED_IP_WINDOWS` of them, in order of last touch, each with the window given at that touch. |
| `LimitLru.LiveWindowsAreLostToPressure` | apps/auth-api/src/rate-limit.ts:108-160 | With time moving forward, an unexpired window is missing only after that many other addresses were touched since its own last touch. |
| `Scopes.ParsePrint` | apps/auth-api/src/membership-authority.ts:154-175 | Printing then parsing a scope gives it back exactly when its id is non-empty and has no colon. |
| `Scopes.PrintParse` | apps/auth-api/src/membership-authority.ts:165-175 | Parsing then printing gives the text back, so a text has one reading. |
| `Scopes.HighestRequestedRole` | apps/auth-api/src/membership-authority.ts:177-194 | The loop finds the highest role a request names on a resource. |
| `Scopes.GrantedIsHighest` | apps/auth-api/src/membership-authority.ts:177-194 | The rank granted is an upper bound of the roles named and is one of them. |
| `Scopes.NarrowOne` | apps/auth-api/src/membership-authority.ts:196-206 | One live scope keeps the least role all constraints grant, or is dropped at the first that does not name it. |
| `Scopes.NarrowMembershipAuthority` | apps/auth-api/src/membership-authority.ts:45-56 | The whole authority is narrowed scope by scope in order; a live scope that is no membership scope is an error; absent constraint sets do not constrain. |
| `ScopeMeet.NarrowGrants` | apps/auth-api/src/membership-authority.ts:196-206 | On every resource narrowing leaves the least of the live rank and the constraints' ranks. |
| `ScopeMeet.NarrowIsMeet` | apps/auth-api/src/membership-authority.ts:45-56 | The result is below the live authority and every constraint, and an authority is below the result exactly when it is below them all. |
| `ScopeMeet.ConstraintOrderIsIrrelevant` | apps/auth-api/src/membership-authority.ts:45-56 | The result is the same text for the same set of constraints, in any order and repetition. |
| `ScopeMeet.NarrowStaged` | apps/auth-api/src/membership-authority.ts:45-56 | Narrowing by two batches at once is narrowing by one and then the other. |
| `ScopeMeet.NarrowIsIdempotent` | apps/auth-api/src/membership-authority.ts:45-56 | Narrowing again by the same constraints changes nothing. |
| `ScopeMeet.UnconstrainedIsIdentity` | apps/auth-api/src/membership-authority.ts:45-56 | With no constraints the authority comes back text for text. |
| `MembershipLookup.SelectionIs` | apps/auth-api/src/membership-authority.ts:113-128 | Selection finds an App exactly when the selector is its id, or is no id and is the key of that App alone; it is ambiguous exactly when it is no id and two Apps share the key. |
| `MembershipLookup.SelectionIsOrderFree` | apps/auth-api/src/membership-authority.ts:101-128 | Listing the same Apps in another order selects the same App, or refuses alike. |
| `MembershipLookup.IdCannotBeCaptured` | apps/auth-api/src/membership-authority.ts:101-128 | Apps of other Orgs, whatever their keys and wherever listed, cannot take a canonical id away. |
| `MembershipLookup.ResolveAppSelectionForUser` | apps/auth-api/src/membership-authority.ts:83-99 | The lookup one Org at a time: select among all reachable Apps, then bind at the live role. |
| `MembershipLookup.ResolveOrgSelectionForUser` | apps/auth-api/src/membership-authority.ts:134-152 | The Org lookup: id first, then the slug in listing order, then the live role. |
| `MembershipLookup.OrgSelectionIs` | apps/auth-api/src/membership-authority.ts:134-152 | An Org selector finds the membership with that id, else the one whose Org has that slug. |
| `MembershipLookup.ResolutionIsOrderFree` | apps/auth-api/src/membership-authority.ts:83-152 | Under the database's keys, listing order never decides what a selector binds. |
| `MembershipLookup.AppBindingIs` | apps/auth-api/src/membership-authority.ts:83-99 | A resolved App binding carries the one scope of the selected App at its live role. |
| `SessionStore.StoredSessionReadsBack` | apps/auth-api/src/device-session-store.ts:39-82 | A session reads back as saved exactly when no part is the empty text and its selector is not itself an old-form App scope. |
| `SessionStore.ReadSessionIsStable` | apps/auth-api/src/device-session-store.ts:54-82 | Whatever row is read, saving what was read and reading again changes nothing. |
| `SessionStore.LegacyLookalikeIsLost` | apps/auth-api/src/device-session-store.ts:110-114 | A limit of the encoding: an App id that reads as an old-form scope would come back as the id inside it. |
| `SessionStore.DeviceRefreshSessions.Remember` | packages/db/src/repo/identity.ts:190-201 | Insert, or on a known token refresh the provider session alone. |
| `SessionStore.DeviceRefreshSessions.Rotate` | apps/auth-api/src/device-session-store.ts:70-75 | Remember the next token, then forget the previous one unless they are the same. |
| `DeviceRefresh.RefreshDoor.ExchangeRefreshToken` | apps/auth-api/src/device-refresh.ts:21-127 | The refresh grant step by step, with any outage and any provider answer, as one step on the rows and the provider's live tokens. |
| `DeviceRefresh.RefreshDoor.RequireDeviceEmail` | apps/auth-api/src/device-refresh.ts:187-217 | The verified-email gate passes an email on, and otherwise rotates before it refuses. |
| `DeviceRefresh.RepliedTokenIsUsable` | apps/auth-api/src/device-refresh.ts:76-122 | After a 200 and after `email_unverified`, store and provider both hold the replied token, and the presented one is gone from both unless the provider handed it back. |
| `DeviceRefresh.GrantAnswers` | apps/auth-api/src/device-refresh.ts:21-127 | Every answer of the grant, told from request, row, memberships, provider and outage: whether the provider is reached, and then exactly when a token is minted, a verified email asked for, or the request fails. |
| `DeviceRefresh.MintIsForItsResource` | apps/auth-api/src/oauth-routes.ts:270-298 | A refreshed token is for the requested resource, a served one, or for the control plane when none was named; a wide token is for the control plane alone; refresh token and email are the provider's. |
| `DeviceRefresh.UnservedResourceIsRefused` | apps/auth-api/src/oauth-routes.ts:274-292 | A resource that is not served, or wide authority for another than the control plane, is refused with the store and the provider's tokens as they were. |
| `DeviceRefresh.MintIsForItsSession` | apps/auth-api/src/device-refresh.ts:56-75 | A mint is made only for a well-formed request of one selector at most, whose user and Organization the provider's answer confirms. |
| `DeviceRefresh.FailureNamesItsCause` | apps/auth-api/src/device-refresh.ts:21-75 | What each failure says of the request, the row, the selector or the provider. |
| `DeviceRefresh.ClientKeepsAUsableToken` | apps/auth-api/src/device-refresh.ts:43-116 | A request leaves the client with a working token exactly when the presented one worked and the request was refused before the provider, or declined by it, or the provider handed the same token back, or its answer passed every check and no outage came before the reply. |
| `DeviceRefresh.SigningFaultStrandsTheClient` | apps/auth-api/src/device-refresh.ts:94-106 | A concrete signing fault: no row changes, and the client is left with a token that no longer works. |
| `DeviceLogin.LoginAnswers` | apps/auth-api/src/device-oauth.ts:101-172 | Every answer of the device grant: exactly when it logs in and when it is a step-up, for which user and resource, and what the new row says. |
| `SessionChain.ChainsKeepTheirIdentity` | apps/auth-api/src/device-refresh.ts:56-122 | In every run each stored row keeps the user and App of the login its token descends from, its Organization is the one its chain acquired, an acquired Organization stays, and at most one token of a chain works. |
| `SessionChain.RepliedTokenJoinsTheChain` | apps/auth-api/src/device-refresh.ts:64-122 | A replied token works and belongs to the chain of the presented one. |
| `SessionChain.NextRowKeeps` | apps/auth-api/src/device-refresh.ts:65-75 | The row written for the next token keeps the user and App and keeps or acquires the Organization. |
| `SessionEnds.RevocationIsFinal` | apps/auth-api/src/oauth-routes.ts:129-170 | In every run, once a login's working token is revoked or ended at the provider, no token of that login works at any later moment. |
| `CliCredentials.LabelsAreDistinct` | apps/cli/src/auth-binding.ts:22-27 | Distinct selectors never share a label, and none has the label of an unbound token. |
| `CliAuth.Cli.RefreshAccessTokenInPlace` | apps/cli/src/auth-token.ts:31-91 | The refresh on the credential file: save what is minted or the token a 403 hands back, and retry once with a token another process left. |
| `CliAuth.Cli.EnsurePrincipalEmailInPlace` | apps/cli/src/auth-email-backfill.ts:43-120 | The email backfill on the credential file, with every way it ends. |
| `CliAuth.Cli.WithAuthorizationRetryInPlace` | apps/cli/src/auth.ts:132-168 | One command: backfill, reuse or mint, run, and one fresh mint after a 401. |
| `CliOutcomes.CommandEnds` | apps/cli/src/auth.ts:132-168 | Every way a command ends: with no call when its session or refresh throws, with one call when that is not rejected, and after a 401 with a second call on the mint of a new refresh of the file as it then is, or with that refresh's error. |
| `CliOutcomes.RejectedCacheIsMintedAgain` | apps/cli/src/auth.ts:155-168 | A live cached token that meets a 401 is followed by the freshly minted one: two tokens used in that order, no error, and the mint in the file. |
| `CliOutcomes.FirstToken` | apps/cli/src/auth.ts:170-190 | The first token is the stored one exactly when its label is the one asked for and more than half a minute of it is left, and else the mint of a refresh. |
| `CliOutcomes.RefreshConcludes` | apps/cli/src/auth-token.ts:31-91 | What a refresh leaves in the file field by field and what it throws, for every reply; only an `invalid_grant` is tried again, once, with a newer token of the same user. |
| `CliOutcomes.BackfillEnds` | apps/cli/src/auth-email-backfill.ts:43-120 | Exactly when a missing email ends a command, and with which token it goes on. |
| `CliOutcomes.LoginSaves` | apps/cli/src/auth.ts:53-92 | A login is saved exactly when user, email and refresh token came, and then as they came. |
| `CliOutcomes.RefreshedFileWorks` | apps/cli/src/auth-token.ts:60-91 | CLI and server together: a refresh whose reply arrives leaves a working refresh token in the file exactly when the stored one worked and the request was harmless. |
| `CliServerRuns.RunKeeps` | apps/cli/src/auth-token.ts:31-91 | Every run of the server and any number of CLI processes on a credential file, with every write of that file, keeps this: each signature is recorded truly at its serial with its user and directory, each handed-back token belongs to the presented one's user, and every file ever written is sound. |
| `CliServerRuns.EveryFileIsLabelledTruly` | apps/cli/src/auth-binding.ts:22-27 | In every run the token in every credential file was signed by the server for the file's own user, and its label names exactly its authority: one scope on what the selector resolved to, in that user's memberships, when it was signed. |
| `CliServerRuns.EveryCommandRunsWithItsBinding` | apps/cli/src/auth.ts:132-168 | In every run every token a command's call is made with, cached, minted or minted after a 401, was signed for the authority the command asked for: what its selector resolved to for the token's user when it was signed. |
| `BindingLabels.MintIsLabelledTruly` | apps/cli/src/auth-token.ts:221-258 | A minted file's label is true of its token in the directory of the mint, and the token carries the authority asked for. |
| `BindingLabels.MintedFileIsSound` | apps/cli/src/auth-token.ts:221-258 | A logged mint saved for the request it answers makes a sound file that serves the binding asked for. |
| `BindingLabels.LoginIsLabelledTruly` | apps/cli/src/auth.ts:53-92 | A login saves a label that is true in the directory of the login. |
| `BindingLabels.AppLabelMeansOneApp` | apps/cli/src/auth.ts:170-190 | A true `app:X` label means the token's only scope is on App X. |
| `BindingLabels.CommandRunsWithItsBinding` | apps/cli/src/auth.ts:132-168 | Against any true record of signatures: every token a command's call is made with has the recorded authority the command asked for, and the file it leaves is sound again. |
| `BindingLabels.CachedServes` | apps/cli/src/auth.ts:170-190 | A cached token that passes for a selector has the authority the selector stood for when the token was signed. |
| `BindingLabels.ReuseAgreesWithLookup` | apps/cli/src/auth.ts:170-179 | While the same Apps and Orgs are reachable, listed in any order, reuse is what a fresh mint would bind. |
| `BindingLabels.ReuseAfterChange` | apps/cli/src/auth.ts:170-179 | After membership changed, a token reused for an App is still the App a fresh lookup would choose exactly when that App is still reachable under its id. |
| `BindingLabels.OrgReuseAfterChange` | apps/cli/src/auth.ts:170-179 | After membership changed, a token reused for an Org selector is still on the Org a fresh lookup would choose exactly when the user is still in that Org and the selector is its id, or is still its slug and is no id. |
| `BindingLabels.SlugMovesToAnotherOrg` | apps/auth-api/src/membership-authority.ts:134-152 | Two such changes: the slug moves to another Org, and another Org's id is the selector. |
| `BindingLabels.KeyTakesOverAGoneId` | apps/auth-api/src/membership-authority.ts:113-128 | Such a change: the App is gone and another App keyed by its id is bound instead. |
| `BackfillSticks.BackfillMarks` | apps/cli/src/auth-email-backfill.ts:104-120 | A backfill that lets the command go on without an email leaves the file marked, exactly unless another process had rotated it by then. |
| `BackfillSticks.CommandWithoutMint` | apps/cli/src/auth.ts:132-168 | An uninterrupted command that mints nothing leaves a marked file marked, on the same token. |
| `BackfillSticks.BackfillSticksUntilExpiry` | apps/cli/src/auth-email-backfill.ts:43-120 | After a backfill that let its command go on without an email, over every sequence of uninterrupted commands that mint nothing, the next attempt is made exactly when the stored token has expired. |
| `Base64Url.BytesToBase64Url` | apps/auth-api/src/token-exchange.ts:46-52 | The encoder loop computes the base64url text of the bytes. |
| `Base64Url.Base64UrlToBytes` | apps/auth-api/src/jwks.ts:44-58 | The array-filling decoder returns the decoded bytes, or refuses exactly when the strict decoding does. |
| `Base64Url.EncodeIsText` | apps/auth-api/src/token-exchange.ts:46-52 | `btoa` with its alphabet rewritten and padding stripped is the 6-bit groups in the URL alphabet and nothing else. |
| `Base64Url.DecodeInvertsEncode` | apps/auth-api/src/token-exchange.ts:109-123 | For every byte sequence the padded, unpadded and strict decoders give back what was encoded; only the strict one refuses the text of no bytes. |
| `Base64Url.StrictAccepts` | apps/auth-api/src/jwks.ts:44-47 | The strict decoder refuses exactly the empty text, a foreign character and a length of 1 modulo 4. |
| `Base64Url.ReencodingIsExact` | apps/auth-api/src/jwks.ts:44-58 | An accepted text is the encoding of what it decodes to exactly when its unused bits are zero. |
| `Base64Url.EncodedTextIsPlain` | apps/analysis-api/src/entity-privacy-cursor.ts:25-30 | Encoded text is the alphabet only, never ends in a lone character, and is empty only for no bytes. |
| `SignedTexts.SignatureValid` | apps/auth-api/src/device-grant.ts:62-75 | The byte loop accepts exactly the decoded signature of the payload. |
| `SignedTexts.SealedGrantOpens` | apps/auth-api/src/device-grant.ts:15-45 | A sealed grant opens to itself until the moment it expires and never after. |
| `SignedTexts.OpenedGrantWasSigned` | apps/auth-api/src/device-grant.ts:20-45 | What opens was signed under the secret, says what was signed and has not expired. |
| `SignedTexts.SignedTokenDecodes` | apps/auth-api/src/jwks.ts:70-92 | A signed compact JWS decodes to its header, its claims and a signature over exactly the signed text. |
| `AppAudit.BeforeIsStrictOrder` | apps/analysis-api/src/app-audit.ts:127-135 | Timestamp then id is a strict total order on positions. |
| `AppAudit.AssertEventOrder` | apps/analysis-api/src/app-audit.ts:115-125 | Comparing neighbours only accepts exactly the strictly descending lists below the cursor. |
| `AppAudit.CursorIsForItsQuery` | apps/analysis-api/src/app-audit-cursor.ts:11-54 | A cursor resumes for its own App and filters, whatever the limit, and is refused for any others. |
| `AppAudit.ReadAppAudit` | apps/analysis-api/src/app-audit.ts:62-83 | The reply to a query given the pipe's rows: refuse a foreign cursor, too many rows, a foreign App and disorder, else a page with its cursor. |
| `AppAudit.ReplyIs` | apps/analysis-api/src/app-audit.ts:62-125 | An invalid cursor is an invalid pagination; too many, foreign or disordered rows are an internal error; anything else is a page of the first rows, which says whether there were more and has a cursor exactly then. |
| `AppAudit.CursorReads` | apps/analysis-api/src/app-audit-cursor.ts:11-54 | A cursor counts as none only when absent or empty, and resumes only where its own query's body with a valid position was written. |
| `AuditPaging.PageIs` | apps/analysis-api/src/app-audit.ts:62-83 | A page is the first items selected after the cursor, and it says that it is truncated, and has a cursor, exactly when there are more. |
| `AuditPaging.PagingMissesNothing` | apps/analysis-api/src/app-audit.ts:62-109 | Following cursors while the store grows: no page fails, nothing comes back twice, out of order or unmatched, and once a page has no cursor every event that matched at the start has come back. |
| `AuditPaging.PagingIsTheWholeList` | apps/analysis-api/src/app-audit.ts:62-109 | Over a store that stays, with any positive limit on each page, paging ends and the pages together are exactly the matching events in order. |
| `Positionals.MissingRequiredPositional` | apps/cli/src/command-positionals.ts:73-95 | The gate's scan finds the first slot that neither a flag, the body nor the next unused token fills. |
| `Positionals.RequiredPositionalSpecs` | apps/cli/src/command-positionals.ts:20-38 | The required positionals are the path's parameters without the scope ones. |
| `Positionals.OperationInput.BuildOperationInput` | apps/cli/src/operation-input.ts:32-57 | The input record filled in place by body, context, org flag and positionals. |
| `Positionals.OperationInput.ApplyPositionalFields` | apps/cli/src/operation-input.ts:122-152 | Tokens fill the slots still empty, in order; too many are refused with the record unchanged. |
| `Positionals.GateAgreesWithBinding` | apps/cli/src/command-positionals.ts:193-207 | The gate accepts a command line exactly when binding it succeeds and leaves every path parameter filled; then each token lands in its slot, one to one and in order. |
| `Positionals.RefusalsAgree` | apps/cli/src/command-positionals.ts:107-134 | Gate and binding refuse too many tokens alike, for the same reason. |
| `Positionals.InputHolds` | apps/cli/src/operation-input.ts:80-118 | Field by field what the built input holds: App, Environment or promotion target from the context where the command takes them, the Organization from `--org`, and every other field outside the open slots as the body has it. |
| `Positionals.ExcessSays` | apps/cli/src/command-positionals.ts:107-134 | Too many tokens are refused with the first parameter already filled, else with the first token left over. |
| `Positionals.MissingSays` | apps/cli/src/command-positionals.ts:73-95 | The parameter said to be missing is the open slot whose token is the first absent or empty one. |
| `ReplayWindows.VerifyIdJag` | apps/auth-api/src/idjag-verify.ts:129-151 | One presentation: claim checks at the clock read first, then the cache read and write. |
| `ReplayWindows.JagIsAcceptedAgainOnlyAcrossItsExpiry` | apps/auth-api/src/jti-cache.ts:36-47 | In every history of presentations that do not overlap, an assertion is accepted again only by one that took its clock before the expiry and read the cache after it. |
| `ReplayWindows.PromptJagIsAcceptedOnce` | apps/auth-api/src/idjag-verify.ts:73-145 | Presentations that read the cache before the assertion expires accept it at most once ever. |
| `ReplayWindows.JagIsAcceptedExactlyWhen` | apps/auth-api/src/jti-cache.ts:36-47 | In every history of presentations that do not overlap, exactly which are accepted: those of a trusted assertion with a verified email, unexpired and of a recent sign-in by their own clock, that read the cache after the entry of every earlier acceptance of the same jti has expired. |
| `ReplayWindows.SlowReplayIsAccepted` | apps/auth-api/src/idjag-verify.ts:129-145 | A concrete replay that gets through across the expiry. |
| `ReplayWindows.ProcessSecurityEventToken` | apps/auth-api/src/security-event-token.ts:28-51 | One event: claim checks, then the receipt read and write. |
| `ReplayWindows.EventIsProcessedOnce` | apps/auth-api/src/security-event-receipts.ts:15-20 | An event is processed as new at most once in every history of presentations that do not overlap and reach the receipts within a day less a minute of their clock reading. |
| `ReplayWindows.EventIsProcessedExactlyWhen` | apps/auth-api/src/security-event-token.ts:28-99 | In every history of presentations that do not overlap, exactly which events are processed as new: verified, within a week and a minute of their own clock, unexpired, and reading the receipts after every earlier receipt under the same key has expired. |
| `ReplayWindows.ReceiptKeys` | apps/auth-api/src/security-event-receipts.ts:15-20 | Events share a receipt exactly when issuer and jti are the same, for issuers without a NUL. |
| `ReplayWindows.SlackIsExact` | apps/auth-api/src/security-event-token.ts:93-99 | A presentation that takes all of that slack processes the event a second time. |
| `Usage.ReadUsageFromTinybird` | apps/analysis-api/src/usage.ts:29-90 | The loop over rows computes the usage response, and the first foreign or malformed row ends it. |
| `Usage.UsageIsConserved` | apps/analysis-api/src/usage.ts:43-89 | Each of the seven breakdowns holds each key once, with exactly the evaluations of that key's rows, and adds up to the total. |
| `Usage.ResponseAddsUp` | apps/analysis-api/src/usage.ts:58-89 | The response is populated exactly when there are rows, and its own count is what each of the seven breakdowns adds up to. |
| `Usage.BreakdownsAscend` | apps/analysis-api/src/usage.ts:212-214 | Under a total order on keys every breakdown ascends. |
| `Usage.UsageIsOrderFree` | apps/analysis-api/src/usage.ts:43-89 | Under a total order on keys the response does not depend on the order the rows arrived in. |
| `Renderer.TerminalTextIsIdempotent` | apps/cli/src/format-payload.ts:51-72 | Escaping is idempotent and changes exactly the texts that hold a control. |
| `Renderer.CollectionColumns` | apps/cli/src/format-payload.ts:171-179 | Columns are the keys in first-seen order. |
| `Renderer.RecordParts.Push` | apps/cli/src/format-payload.ts:229-249 | One field pushed into the lines or the sections. |
| `Renderer.FormatRecordInParts` | apps/cli/src/format-payload.ts:256-263 | Pushing the fields one by one renders the record. |
| `RendererLines.OutputHasItsBreaks` | apps/cli/src/format-payload.ts:74-278 | For every finite payload whose keys, like the noun, hold no controls, the output has exactly as many newlines as the payload's structure asks for, whatever its strings hold, so every newline is one the renderer put there. |
| `RendererControls.OutputHoldsOnlyNewlines` | apps/cli/src/format-payload.ts:270-278 | And the only control or bidi character in that output is the newline; a scalar payload has not even that. |
| `RendererControls.TableHasALineARow` | apps/cli/src/format-payload.ts:124-140 | A table has one line for its headers and one for each row, whatever the cells hold. |
| `RendererReadings.ItemStandsInTheTable` | apps/cli/src/format-payload.ts:124-186 | A flat collection is a table of one line for its headers and one for each item in order, and each item's line has, where a column starts in every line, that item's own field of that name. |
| `RendererReadings.RecordShowsEveryField` | apps/cli/src/format-payload.ts:229-263 | A record shows every field once, as one line or one section, and every scalar in a line of its label and value. |
| `RendererReadings.ListShowsItsItems` | apps/cli/src/format-payload.ts:213-227 | Each item of a list is one bullet, or one text of an inline list, and shows that item. |
| `RendererReadings.EnvelopeSays` | apps/cli/src/format-payload.ts:188-191 | An empty list says so by its noun, and exactly a truncated one ends with the notice of how many rows are shown. |
| `RendererReadings.WordsKeepLetters` | apps/cli/src/format-payload.ts:38-46 | Splitting a key into the words of its label drops its separators and nothing else. |
| `RendererReadings.LabelsAsDocumented` | apps/cli/src/format-payload.ts:37-46 | The two documented labels: `defaultVariantId` becomes `Default Variant ID` and `p_value` becomes `P Value`. |
| `RendererControls.ControlKeyLeaks` | apps/cli/src/format-payload.ts:38-46 | Keys are not escaped: a control in a key reaches the output. |

## Left out

- Cryptography, HTTP and schema parsing, spans, logging, storage transports and their timeouts.
- Two `verifyClaim` details: the member-profile write before a mint, and the `demo_expires_at`, role and
  acquisition-key columns. Verification rows with no resource stand for rows from before that column.
- `verifyClaim` and its helpers are modelled as steps on values, not as a class, so that calls can interleave;
  update in place and aliasing of one call's locals are not captured.
- ClaimRecovery.CrashRecovery: call and retry run alone, with the rate limiter admitting, on a claim that goes to
  the claimant; competing calls and calls that act on a consent are covered by the safety results, and the
  replay of what a consent completed by ClaimRecovery.CompletedClaimReplays.
- LimitRefinement.LimitersAgree: the request validation of the durable object, which refuses ceilings that
  are not positive, is not modelled.
- LimitBound.MemorySlidingBound: the per-address bound of the in-memory limiter follows from the refinement
  for at most `MAX_TRACKED_IP_WINDOWS` addresses and fails beyond, where windows are evicted.
- MembershipLookup.ResolveAppSelectionForUser: the repository's answers are one snapshot of one user; reads
  that straddle a change are not modelled.
- DeviceRefresh.RefreshDoor.ExchangeRefreshToken: the member-profile cache, the session cache in KV (written,
  never read) and `created_at` are not modelled.
- DeviceLogin.Login: sealing is in SignedTexts; the rate limit of the first request and the provider's
  polling replies are not modelled.
- SessionChain.ChainsKeepTheirIdentity: revoking is the removal of one token from store and provider; access
  token revocation markers are not modelled. A login or refresh request is one step: two requests racing at
  their awaited calls, or a revocation between the provider's rotation and the store's, are not interleaved.
- CliAuth.Cli.WithAuthorizationRetryInPlace: personal access tokens, credential-store faults, file
  permissions and logout are not modelled. The fault reader trims a handed-back refresh token and cuts it at 300
  characters; the model keeps it whole.
- AppAudit.ReadAppAudit: the projection of a row beyond its App, the pipe's deduplication and the refusal of
  a blank App id are not modelled.
- SignedTexts.SignedTokenDecodes: the JSON inside the segments, key selection and signature verification are
  not modelled.
- Positionals.GateAgreesWithBinding: fields that named flags add after the positionals are not modelled.
- Positionals.OperationInput.BuildOperationInput: only the steps up to the positionals, without the check that a
  review in the body is confirmed.
- ReplayWindows.VerifyIdJag: issuer lookup, signature and audience are one verdict; resolving the user is left
  out. KV's eventual consistency and racing presentations are outside the claim, as the code says.
- Usage.ReadUsageFromTinybird: counts are unbounded, where JavaScript numbers lose precision beyond 2^53; the
  order of keys is a parameter, total or not.
- Renderer.CollectionColumns: characters are code points, so lone surrogates are not represented and padding
  counts code points; the label table is a plain map, while the source's object also answers the inherited
  word `constructor`.
- `resolveMembershipAuthority`, the evaluator, the stats engine, CLI help and notices, email and URL folding are
  not modelled.
