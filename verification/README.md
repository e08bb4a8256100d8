# Knox: a verified model of its credential, key and role machinery

Knox is an OAuth 2.0 and OpenID Connect server over two stores: Redis, a map of keys to values with deadlines, and
Postgres, a set of tables. This project models the parts of Knox where safety depends on many requests taken together
and proves what they promise over every run.

`dafny verify dfyconfig.toml` checks the whole project.

## How the model is built

- **Time and stores.** Time is a counter of seconds that only grows. A Redis entry is readable while the clock is below
  its deadline (`Redis.dfy`). All caches share one Redis under flat string keys; `RedisKeys.dfy` proves that these never
  collide, so each family of keys is its own map elsewhere. `FlatServer.dfy` runs the credential chain over one flat
  map, reading and writing by key strings alone, and proves that it gives the same answers in every run.
- **Requests.** An HTTP request is one atomic step, except in `SecondFactors.dfy` (every store call is a step of its
  own and tasks interleave freely), `Argon2Gate.dfy` (tasks interleave at every await) and `AuditPages.dfy` (inserts
  happen between pages).
- **Secrets.** Random values come from a counter of values not used before. A hash stands for what it was made from, a
  signed challenge verifies only if it was issued. The SHA-256 digest of PKCE, the codes an authenticator shows and the
  hash of a backup code are parameters. A signed token is accepted while `now < exp + slack`, where the slack is a
  parameter too: the JWT library adds a leeway of its own choosing and Knox does not set it
  (crates/knox-core/src/token.rs:653-655).
- **Configuration.** Every request carries the configuration of its tenant, so tenants differ and settings change
  between requests. A theorem that needs a setting fixed asks it of the tenant concerned only.
- **History.** A log of facts (password checked, challenge spent, session opened, code issued, tokens minted, ...) is
  kept beside the stores. No request reads it; the theorems about runs are statements about it.
- **Told twice.** What an operation does is given once as a function and once more, in the modules whose lemmas end in
  `Exactly`, by the columns and entries it depends on, without the function's helpers: who is let in, what is written,
  what stays. The theorems about runs rest on the functions, these lemmas say that the functions are the right ones.
- **Two forms.** `Credentials.dfy`, `KeyViews.dfy`, `ClientCache.dfy`, `SecondFactors.dfy` and `Grants.dfy` give each
  operation as a function on the state; the lemmas about runs are about these. `Server.CredentialServer`,
  `KeyRepository.CachedKeys`, `ClientVersions.CachedClients`, `SecondFactors.MfaStore`, `RoleStore.AuthorizationStore`
  and `FlatStore.TokenCache` are the same operations as objects whose methods update their fields in the order the
  services do, each proved equal to its function.

## The files

| file | what it holds |
|---|---|
| `Credentials.dfy` | password, MFA challenge, SSO session, code, tokens, rotation, password flows, as a state machine |
| `Server.dfy` | the same as an object with methods in the services' order |
| `Provenance.dfy` | every token goes back to a password check |
| `Rotation.dfy` | single use, refresh families, what a mint may carry |
| `Tripwire.dfy` | how long reuse of a redeemed refresh token is recognised, and what it then ends |
| `Redemption.dfy` | exactly when codes, sessions and tokens are honoured; the PKCE binding over runs |
| `TokenEndpoint.dfy` | what the token endpoint answers and saves, from one refresh token to the next |
| `Logins.dfy` | exactly who gets in, with a password and with a second factor |
| `Passwords.dfy` | exactly what the password flows write, and which password then logs in |
| `PasswordHistory.dfy` | what every password of a run was earned with, and how many codes can be tried for it |
| `Enrolment.dfy` | exactly what enrolling, confirming and removing a factor write |
| `History.dfy` | which request tells which fact |
| `Epochs.dfy` | when revoked sessions stay revoked although the counter expires |
| `Moves.dfy` | every request as a path of small moves, for invariants about challenges and factors |
| `Challenges.dfy` | how often an MFA challenge is attempted and consumed, for every configuration |
| `PasswordResets.dfy` | what a reset token leads to |
| `ChallengeReuse.dfy` | runs that reach those bounds, so that each holds exactly |
| `FactorUse.dfy` | the codes accepted in a run, and what "mfa" in a token rests on |
| `SecondFactors.dfy` | TOTP steps and backup codes under any interleaving |
| `FactorTasks.dfy` | undisturbed, such a task does what the credential chain takes for one step |
| `Scopes.dfy`, `Roles.dfy`, `Grants.dfy`, `Privilege.dfy`, `RoleStore.dfy`, `RoleRows.dfy` | scopes, roles and how they spread |
| `RoleEffects.dfy` | exactly what each granting action does to everybody's roles |
| `Exposure.dfy` | exactly when client tokens create privilege |
| `FlatStore.dfy`, `FlatServer.dfy` | one flat Redis, and the credential chain over it |
| `KeyViews.dfy`, `KeyRotation.dfy`, `KeyEffects.dfy`, `KeyRepository.dfy` | signing keys behind four cached views |
| `ClientCache.dfy`, `ClientVersions.dfy`, `ClientEffects.dfy` | clients behind a two-key cache, token versions |
| `AuditPages.dfy`, `AuthorizeUrl.dfy`, `Base64Url.dfy`, `TenantHost.dfy`, `RedisKeys.dfy` | pages, codecs and parsers |
| `Argon2Gate.dfy` | the hashing semaphore |
| `Redis.dfy`, `Pkce.dfy`, `Wrappers.dfy` | shared definitions |

## Where the code and a promise part

Each of these is stated as an exact condition.

- **MFA challenges.** The consumed marker and the attempt counter are kept for the challenge lifetime of the request
  that sets them, while the challenge itself is accepted up to its `exp` and the slack. In every run a challenge spent
  twice was first spent so early that its marker ended first (`Challenges.ReuseIsEarly`), and more than `n` times the
  attempt limit takes a first attempt `n` lifetimes before the challenge's end (`Challenges.EvaluationsAreBounded`).
  With the tenant's configuration fixed, reuse and excess need a first use less than the slack after the issue. A run
  that reuses a challenge, or sets two passwords with one reset token, exists exactly when the slack is positive and
  attempts are allowed (`ChallengeReuse.ReusedExactly`); a run with more than `n` times the limit exactly when, besides,
  `n` lifetimes are shorter than one lifetime and the slack (`ChallengeReuse.LimitExceededExactly`). So with a lifetime
  no shorter than the slack at most twice the limit is ever evaluated. Without slack both limits hold as long as the
  configuration is fixed (`Challenges.WithoutSlack`); lowering the lifetime between issue and use breaks them even then
  (`ChallengeReuse.LoweredLifetimeReuses`).
- **Own password changes.** Their codes are counted per identity by a counter that expires, so the limit is one for each
  counter lifetime. Where the counter is not running, more than `n` times the limit can be tried within a given time if and
  only if attempts are allowed and `n` lifetimes fit (`PasswordHistory.TriesExactly`).
- **Session revocation.** The comment at crates/knox-core/src/authentication.rs:598-603 says a revoked session is never
  resurrected. That holds at every tenant whose own cookie lifetime is fixed (`Epochs.FixedLifetimeRevocationIsFinal`).
  In general a session is refused from its revocation on, at every point of a run and however long one waits, if and
  only if its epoch was current, the counter then lasted to the session's end, and it did so again after every later
  request that opened a session for, or revoked, the same tenant and identity (`Epochs.RevocationHoldsExactly`). The last
  clause matters: refreshing the counter under a shorter lifetime shortens it, so a later login can bring a revoked
  session back (`Epochs.LaterLoginRedeems`), and whenever the last refresh falls short some wait does
  (`Epochs.LastRefreshDecides`).
- **Reuse of refresh tokens.** A scheduled job deletes revoked rows every ten minutes. After a token is redeemed its row
  is stored exactly while the job has not run since, and reuse ends the family exactly then, or when nothing of it was
  live (`Tripwire.ReuseEndsFamilyExactly`); such a reuse ends it for good (`Tripwire.TouchedTripwireEnds`). From an
  initial state the job makes reuse go unnoticed (`Tripwire.TripwireIsGone`).
- **Granting never creates privilege.** True of identity-bearing tokens (`Privilege.PrivilegeIsConserved`). A
  client-credentials token carries what its client may request, and granting does not look at who holds the token. From
  any reachable state without live tokens, and with the tenant's clients left as they are, a permission that is not
  self-service and that nobody in the tenant held can be gained if and only if some role confers it, some client may
  request everything that role confers, and that client may also create identities, or update them in a tenant that has
  one or whose clients may create one (`Exposure.GainedExactly`, `Exposure.PromiseHoldsExactly`). The management client
  that every tenant is provisioned with is such a client for every role (`Exposure.ManagementClientCreates`), so a
  tenant provisioned without an administrator is exposed from the start (`Exposure.FreshTenantCreates`).
- **Token versions.** `rotate_token_version` and `rotate_client_secret` add without a check; exactly at the largest
  32-bit value the version wraps and earlier tokens are accepted again (`ClientVersions.RotationAtTheLimit`). Creation
  takes its caller's version, so two service calls reach the limit (`ClientVersions.RotationWrapsFromTheStart`); both
  callers in the server create at version 1, from where it takes 2^31 - 2 rotations and one more
  (`ClientVersions.RotationsReachTheLimit`). `update_client` checks.
- **Revoked keys.** `expire_key` sets the state whatever it was. A revoked key's tokens are refused at every point of a
  run if and only if the run never moves the key to another state while it is stored (`KeyRotation.StaysDownExactly`);
  from an initial state, create, revoke and expire bring them back (`KeyRotation.RevivedFromTheStart`).
- **The hashing semaphore.** It is there to cap how many hashes run at once (crates/knox-core/src/identity.rs:240-243).
  The permit belongs to the request and the hash to a blocking thread, so a request dropped during its hash returns the
  permit while the hash runs on. With p permits, n hashes can run at once if and only if n is 0, or p is not and n is at
  most p plus the number of requests dropped there (`Argon2Gate.HashesRunExactly`): p is the bound of every run without
  such drops, and with them there is none.
- **Resumed authorize requests.** Besides `prompt` and `max_age`, which the documentation names, the rebuilt URL also
  drops `response_mode` and `login_hint` and always says `response_type=code` (`AuthorizeUrl.UrlRoundTrip`).

## Model

| member | source | states |
|---|---|---|
| Server.PermittedScopes | crates/knox-services/src/oidc/service.rs:270-349 | the two-stage narrowing, with the second factor consulted only when some scope needs it, grants what the one-line specification grants |
| Server.CredentialServer.EstablishSession | crates/knox-core/src/authentication.rs:613-659 | a session carries the current epoch, keeps the counter alive and lives for the cookie lifetime |
| Server.CredentialServer.RevokeSessions | crates/knox-core/src/authentication.rs:672-691 | all of the identity's refresh records are revoked and its epoch moves on, refreshed |
| Server.CredentialServer.ValidateSso | crates/knox-core/src/authentication.rs:694-757 | a cookie redeems only at its tenant and pool, at a current epoch, within max_age, for an active identity |
| Server.CredentialServer.MintChallenge | crates/knox-core/src/authentication.rs:311-362 | a challenge names its purpose, pool and identity and lasts the MFA lifetime |
| Server.CredentialServer.AuthenticateUser | crates/knox-core/src/authentication.rs:212-304 | a matching password opens a session, or issues a challenge when a factor is verified |
| Server.CredentialServer.Admit | crates/knox-core/src/authentication.rs:364-486 | which checks come before an attempt is counted and which after, in the source's order |
| Server.CredentialServer.Verify | crates/knox-core/src/mfa.rs:167-183 | a TOTP code is accepted by claiming its step, a backup code by marking its rows used; other methods are refused |
| Server.CredentialServer.Consume | crates/knox-core/src/authentication.rs:364-537 | an admitted attempt counts as an evaluation, and only a code that the identity's own factor accepts marks the challenge consumed |
| Server.CredentialServer.AuthenticateMfa | crates/knox-core/src/authentication.rs:543-595 | a login challenge of the client's pool turns into a session whose amr names both factors and mfa |
| Server.CredentialServer.HandleAuthorize | crates/knox-services/src/oidc/service.rs:110-253 | the order of refusals, and the login snapshot that a code carries |
| Server.CredentialServer.IssueTokens | crates/knox-services/src/oidc/service.rs:437-506 | cross-tenant scopes are stripped first; a refresh record repeats scopes, login and family |
| Server.CredentialServer.GrantClientCredentials | crates/knox-services/src/oidc/service.rs:586-661 | scopes within the client's, no identity and no login |
| Server.CredentialServer.GrantAuthorizationCode | crates/knox-services/src/oidc/service.rs:664-812 | the code is gone whatever follows; client, age, redirect URI and PKCE must fit |
| Server.CredentialServer.GrantRefreshToken | crates/knox-services/src/oidc/service.rs:815-940 | reuse or a wrong client ends the family; a used token is revoked before its identity is looked up |
| Server.CredentialServer.WritePassword | crates/knox-core/src/identity.rs:453-491 | at least eight characters; the write is followed by revocation of every session |
| Server.CredentialServer.ChangeOwnPassword | crates/knox-core/src/authentication.rs:769-845 | the current password is checked before an attempt of the second factor is counted, and the code must be accepted by the identity's factor |
| Server.CredentialServer.RequestPasswordReset | crates/knox-core/src/authentication.rs:853-879 | a reset token lives for its configured time |
| Server.CredentialServer.ResetPassword | crates/knox-core/src/authentication.rs:959-1018 | presenting a reset token spends it; with a verified factor it yields a challenge, not a password |
| Server.CredentialServer.CompleteReset | crates/knox-core/src/authentication.rs:1027-1055 | only a consumed reset challenge sets the password |
| Server.CredentialServer.Enrol | crates/knox-core/src/mfa.rs:50-289 | enrolment, its confirmation by a claimed step, removal and new backup codes, each with its refusals |
| Server.CredentialServer.PruneRecords | migrations/20260424140000_refresh_token_cron.up.sql:3-11 | expired and revoked refresh rows go, the others stay |
| Server.CredentialServer.ServeAll | crates/knox-services/src/oidc/service.rs:352-437 | any sequence of requests takes the server object where the state machine says, so every theorem about runs is about it |
| Logins.LoginExactly | crates/knox-core/src/identity.rs:218-271 | a login succeeds if and only if the client is active and the identity is stored in its pool, active, with exactly the presented password; it opens a session exactly when no factor is verified, and a refusal changes nothing |
| Logins.PasswordWasPresented | crates/knox-core/src/authentication.rs:212-304 | in every run, behind each password check there is a login request that presented the password then stored, at an active client of that pool |
| Logins.TokensRestOnAPassword | crates/knox-core/src/authentication.rs:212-304 | so behind every identity-bearing token of a run there is a login that presented the identity's stored password |
| Logins.VerifiedExactly | crates/knox-core/src/mfa.rs:167-183 | a code is accepted exactly if the identity's verified secret shows it in a step of the window later than any used, or an unused backup row has it; exactly that step or those rows are then spent |
| Logins.ConsumedExactly | crates/knox-core/src/authentication.rs:364-537 | a challenge is consumed if and only if it was signed for this tenant and purpose, still verifies, is unspent, has attempts left, and its active identity's factor accepts the code; every heard attempt counts, and each failure has its error |
| Logins.MfaLoginExactly | crates/knox-core/src/authentication.rs:543-595 | the second step opens a session if and only if the client is active and a login challenge of its pool is consumed; the session's amr is exactly pwd, otp and mfa |
| Passwords.RevokedExactly | crates/knox-core/src/authentication.rs:672-691 | exactly the identity's records at this tenant are revoked and exactly its epoch moves on, kept for its lifetime |
| Passwords.WrittenExactly | crates/knox-core/src/identity.rs:453-491 | a password is written if and only if it has eight characters and the identity is stored; then exactly that column holds it, everything of the identity is revoked, and otherwise nothing changes |
| Passwords.ChangedExactly | crates/knox-core/src/authentication.rs:769-845 | an own change succeeds if and only if the identity is active, presents the stored password and, when a factor is verified, a code that it accepts while attempts are left; an attempt counts exactly when the password was right and a code was due and given |
| Passwords.RequestedExactly | crates/knox-core/src/authentication.rs:853-879 | a reset token names tenant, pool and identity and lives for its time; nothing else changes |
| Passwords.ResetExactly | crates/knox-core/src/authentication.rs:959-1018 | a token sets the password exactly if it is good and no factor is verified, and leads to a challenge exactly if it is good and one is; it is gone in any case |
| Passwords.CompletedExactly | crates/knox-core/src/authentication.rs:1027-1055 | a reset challenge sets the password exactly if it is consumed and the password long enough |
| Passwords.OnlyTheNewPasswordLogsIn | crates/knox-core/src/identity.rs:453-491 | after a change, a reset or a completed reset, the new password logs the identity in at every active client of its pool and every other one is refused |
| PasswordHistory.PasswordsAreEarned | crates/knox-core/src/authentication.rs:769-845 | in every run each password was set by a request that presented the one before, by a reset token of an unenrolled identity, or by a reset challenge; and of an enrolled identity a code was accepted just before |
| PasswordHistory.TriesAreBounded | crates/knox-core/src/authentication.rs:793-830 | in any run, more than n times the limit of codes is tried for one identity's changes only once n counter lifetimes have passed |
| PasswordHistory.TriesExactly | crates/knox-core/src/authentication.rs:793-830 | how many codes can be tried in a given time, exactly: that bound is met |
| Enrolment.StartedExactly | crates/knox-core/src/mfa.rs:50-128 | an enrolment starts unverified and unused, replaces an unverified one, and is refused beside a verified one |
| Enrolment.ConfirmedExactly | crates/knox-core/src/mfa.rs:131-166 | a code confirms exactly an unverified enrolment whose secret shows it in a new step; the backup codes are then exactly the new ones |
| Enrolment.RemovedExactly | crates/knox-core/src/mfa.rs:224-252 | exactly the owner's enrolment of that id and the owner's backup codes go |
| Enrolment.RegeneratedExactly | crates/knox-core/src/mfa.rs:270-289 | new codes replace exactly the owner's old ones, exactly while a factor is verified |
| Enrolment.PrunedExactly | migrations/20260424140000_refresh_token_cron.up.sql:3-11 | exactly the expired and the revoked refresh rows go |
| Scopes.PermittedExactly | crates/knox-services/src/oidc/service.rs:270-349 | exactly which requested scopes survive the narrowing, and that it is refused exactly when none does |
| Scopes.PermittedIsSubsequence | crates/knox-services/src/oidc/service.rs:277-286 | narrowing keeps order and repeats nothing |
| Scopes.FloorExactly | crates/knox-core/src/roles.rs:82-153 | without a factor where the policy asks for one, exactly the OIDC scopes and the three self-service permissions held remain |
| Provenance.TokenProvenance | crates/knox-core/src/authentication.rs:212-595 | in every run each identity-bearing token goes back through rotations, one code and one session to a password check of the same identity, tenant and pool; its login is the session's; amr has mfa exactly when a login challenge was consumed |
| Provenance.RecordProvenance | crates/knox-services/src/oidc/service.rs:473-506 | every refresh record in every run carries what the mint that saved it carried |
| Provenance.RotationNarrows | crates/knox-services/src/oidc/service.rs:916-933 | every rotated token has a predecessor with the same login and family whose scopes it is a subsequence of |
| Rotation.FamiliesHaveOneLiveToken | crates/knox-services/src/oidc/service.rs:846-903 | in every reachable state every family has at most one unrevoked token |
| Rotation.ReuseEndsFamily | crates/knox-services/src/oidc/service.rs:846-890 | presenting a stored revoked member, or presenting at the wrong client, leaves the family with none |
| Tripwire.RowStandsExactly | migrations/20260424140000_refresh_token_cron.up.sql:3-11 | in any run a revoked row is still stored, with its family, if and only if the job has not run |
| Tripwire.ReuseEndsFamilyExactly | crates/knox-services/src/oidc/service.rs:829-890 | after a token is redeemed and any run, its reuse ends the family if and only if the job has not run since or nothing of it was live |
| Tripwire.TouchedTripwireEnds | crates/knox-services/src/oidc/service.rs:829-890 | after such a reuse no token of the family yields tokens in any later state |
| Tripwire.TripwireIsGone | migrations/20260424140000_refresh_token_cron.up.sql:3-11 | from an initial state: login, code, rotation and the job, after which reuse changes nothing and the family lives on |
| Rotation.PruningSparesTheFamily | migrations/20260424140000_refresh_token_cron.up.sql:3-11 | pruning deletes the revoked row while its family's live token stays |
| Rotation.DeadFamilyStaysDead | crates/knox-storage/src/token/store.rs:116-144 | a family with no unrevoked token never gains one again |
| Rotation.RevokedStaysRevoked | crates/knox-storage/src/token/store.rs:116-144 | a revoked refresh token is revoked or deleted in every later state of every run |
| Rotation.CredentialsAreSingleUse | crates/knox-storage/src/token/cache.rs:120-141 | no code and no refresh token is redeemed twice, and no identifier is issued twice, in any run |
| Rotation.FamilyKeepsItsLogin | crates/knox-services/src/oidc/service.rs:473-498 | all tokens of a family name one tenant, client, identity, pool, amr and auth_time, hence one acr |
| Rotation.RotatedScopesAllowed | crates/knox-services/src/oidc/service.rs:915-918 | each rotated scope was on the record and is held now, and self-service when the policy asks for a missing factor |
| Rotation.RedeemedScopesAllowed | crates/knox-services/src/oidc/service.rs:792-794 | the same at code exchange |
| Redemption.AuthorizeExactly | crates/knox-services/src/oidc/service.rs:110-253 | a code is issued if and only if client, redirect URI, PKCE challenge, prompt, session, principal and every scope fit; a refusal names the first thing wrong and changes nothing |
| Redemption.RedeemExactly | crates/knox-services/src/oidc/service.rs:664-812 | a code yields tokens if and only if everything about it fits; whatever happens it is gone, and a refusal changes nothing else |
| Redemption.IssuedCodeRedeemsExactly | crates/knox-services/src/oidc/service.rs:110-253 | a code just issued is exchanged by its client after d seconds if and only if both age limits, secret, grant type, verifier and scopes fit; session and identity need no second look |
| Redemption.RotateExactly | crates/knox-services/src/oidc/service.rs:815-940 | a refresh token yields tokens if and only if record, client and identity all still stand |
| Redemption.OnlyTheRightVerifierRedeems | crates/knox-services/src/oidc/service.rs:740-781 | in every run whoever redeemed a code presented an acceptable verifier that answers the code's challenge under the code's own method |
| TokenEndpoint.ClientCredentialsExactly | crates/knox-services/src/oidc/service.rs:586-661 | a client earns tokens for itself if and only if it is active, presents its secret, has the grant type, asks only for what it is allowed, and the key signs; the token carries exactly that without cross-tenant scopes, no refresh token is saved, and a refusal changes nothing |
| TokenEndpoint.RedeemedExactly | crates/knox-services/src/oidc/service.rs:437-506 | a code exchange answers exactly the scopes that the identity may hold and the tenant may mint, in order, and saves exactly a record of them, expiring the client's lifetime from now, at a client that allows it |
| TokenEndpoint.RotatedExactly | crates/knox-services/src/oidc/service.rs:916-933 | a rotation does the same for its record's scopes, keeps login and family, and revokes exactly the used token |
| TokenEndpoint.RefusedRotationExactly | crates/knox-services/src/oidc/service.rs:846-933 | a refused rotation ends the family exactly on reuse, a wrong client or an inactive identity, revokes the token itself exactly once used, and names the first thing wrong |
| TokenEndpoint.SavedTokenRotatesExactly | crates/knox-services/src/oidc/service.rs:815-940 | from one refresh token to the next: after any run a token handed out earns the next one if and only if it is stored unrevoked, no older than the client's lifetime was, the client and the identity stand, a scope survives and the key signs |
| TokenEndpoint.FreshTokenRotatesExactly | crates/knox-services/src/oidc/service.rs:815-940 | presented by the same client d seconds later it does so if and only if d is within that lifetime, secret and grant type fit, a scope survives and the key signs |
| Epochs.RevocationHoldsExactly | crates/knox-core/src/authentication.rs:598-691 | over any run, a revoked session is refused at every point and after any wait if and only if its epoch was current and the revocation and every later refresh of its counter lasted to its end |
| Epochs.LastRefreshDecides | crates/knox-storage/src/token/cache.rs:82-93 | if the last refresh of the counter falls short of a live session, some wait makes the epoch check pass it |
| Epochs.LaterLoginRedeems | crates/knox-core/src/authentication.rs:613-659 | from an initial state: a login under a shorter lifetime brings back a session that was revoked for its whole life |
| Epochs.RevocationIsFinal | crates/knox-core/src/authentication.rs:604-691 | after revocation no earlier session of the identity is accepted at any point of any run, whatever other tenants and identities use |
| Epochs.FixedLifetimeRevocationIsFinal | crates/knox-core/src/authentication.rs:598-609 | in particular at every tenant whose own cookie lifetime is fixed: no earlier session validates anywhere |
| Epochs.SparedStaysCurrent | crates/knox-core/src/authentication.rs:613-659 | from its opening on, a session whose end every refresh of the counter reaches has a current epoch |
| Epochs.RefusedExactly | crates/knox-core/src/authentication.rs:694-757 | a session behind its counter validates nowhere, any other exactly at its tenant and pool for an active identity |
| Epochs.RevokeRevokes | crates/knox-core/src/token.rs:386-402 | a bump takes hold of a session exactly when the session's epoch is current and the counter then lasts to its end |
| Epochs.RevokedRecordsAreFinal | crates/knox-core/src/authentication.rs:678-680 | after revocation no earlier refresh record of the identity is accepted again |
| Challenges.SpendsAreApart | crates/knox-core/src/authentication.rs:434-523 | in every run, whatever the configuration, a challenge is not consumed again before its marker has expired |
| Challenges.ReuseIsEarly | crates/knox-core/src/authentication.rs:434-523 | a challenge consumed twice was first consumed at least one marker lifetime before the JWT check stops accepting it |
| Challenges.EvaluationsAreBounded | crates/knox-core/src/authentication.rs:456-486 | more than n times the allowed codes are evaluated against a challenge only if it is still accepted n lifetimes after its first attempt, in any run |
| Challenges.ReuseIsWithinSlack | crates/knox-core/src/token.rs:653-655 | with the tenant's configuration fixed, a challenge consumed twice was first consumed less than the slack after its issue |
| Challenges.ExcessIsWithinSlack | crates/knox-core/src/token.rs:653-655 | the same of attempts beyond the limit, and beyond any multiple of it |
| Challenges.WithoutSlack | crates/knox-core/src/authentication.rs:434-523 | without slack and with the tenant's configuration fixed, no challenge is consumed twice and no attempt exceeds the limit |
| PasswordResets.SecondPasswordNeedsReuse | crates/knox-core/src/authentication.rs:959-1055 | no reset token is spent twice, and one that sets two passwords does so through one challenge consumed before each |
| PasswordResets.SecondPasswordIsWithinSlack | crates/knox-core/src/authentication.rs:1027-1055 | that challenge was then first consumed less than the slack after its issue |
| ChallengeReuse.ReusedExactly | crates/knox-core/src/token.rs:653-655 | with a configuration fixed, some run reuses a challenge, and some run sets two passwords with one token, if and only if the slack is positive and attempts are allowed |
| ChallengeReuse.LimitExceededExactly | crates/knox-core/src/authentication.rs:456-486 | some run evaluates more than n times the allowed codes if and only if attempts are allowed and n lifetimes are shorter than one lifetime and the slack |
| ChallengeReuse.ExcessExceeds | crates/knox-core/src/authentication.rs:456-486 | from any state in which a challenge is open and unattempted, that many codes are evaluated while it stays accepted |
| ChallengeReuse.AdmittedAgainExactly | crates/knox-core/src/authentication.rs:519-523 | a consumed challenge is admitted again exactly when the marker has expired and the JWT check still accepts |
| ChallengeReuse.ReuseWithinSlack | crates/knox-core/src/authentication.rs:1027-1055 | a reset challenge consumed early enough sets a second password with another code, from any state |
| ChallengeReuse.LoweredLifetimeReuses | crates/knox-core/src/authentication.rs:519-523 | from an initial state: issued under one lifetime and used under another, a challenge is reused whenever the marker ends first |
| FactorUse.AcceptancesAreOrdered | crates/knox-core/src/mfa.rs:292-361 | in every run of the credential chain accepted TOTP steps of an enrolment increase and no backup row is accepted twice |
| FactorUse.MfaRestsOnAFactor | crates/knox-core/src/authentication.rs:543-595 | "mfa" in a token's amr means a TOTP code of the login's own window that the secret of an earlier enrolment of the token's identity shows, or consumed backup rows of that identity |
| SecondFactors.MatchedStep | crates/knox-core/src/mfa.rs:369-402 | the drift loop returns the earliest step of the window that shows the code, and None exactly when none does |
| SecondFactors.MatchIsEarliest | crates/knox-core/src/mfa.rs:390-401 | the same of its specification |
| SecondFactors.AcceptedStepsIncrease | crates/knox-storage/src/mfa/store.rs:240-262 | under any interleaving the accepted steps of one enrolment strictly increase, confirmation included |
| SecondFactors.AcceptedInWindow | crates/knox-core/src/mfa.rs:311-343 | a step-k code is accepted only if it was matched in [30(k-1), 30(k+2)), presented no later and claimed no earlier |
| SecondFactors.BackupRowsAreSingleUse | crates/knox-storage/src/mfa/store.rs:301-322 | under any interleaving each backup-code row is consumed at most once |
| SecondFactors.UndisturbedLoginExactly | crates/knox-core/src/mfa.rs:292-343 | an undisturbed code is accepted exactly when the enrolment is verified and the matched step is later than any used |
| SecondFactors.MfaStore.ClaimTotpStep | crates/knox-storage/src/mfa/store.rs:240-262 | the conditional update claims a step exactly when it is later than the last one |
| SecondFactors.MfaStore.ConsumeBackupCode | crates/knox-storage/src/mfa/store.rs:301-322 | every unused row of that hash is marked used, and the caller learns whether there was one |
| SecondFactors.MfaStore.ReplaceBackupCodes | crates/knox-storage/src/mfa/store.rs:265-298 | the identity's rows are replaced by fresh ones and no other row changes |
| SecondFactors.MfaStore.CreateMethod | crates/knox-storage/src/mfa/store.rs:24-69 | an unverified enrolment is replaced, a verified one refuses the insert |
| FactorTasks.VerifiesAlone | crates/knox-core/src/mfa.rs:167-183 | presented while no other task interferes, a code is accepted and spent, call by call, as the atomic step of the credential chain does it |
| FactorTasks.ManagesAlone | crates/knox-core/src/mfa.rs:50-289 | likewise enrolling, confirming, removing and new codes |
| Roles.TenantRolesAreLocal | crates/knox-core/src/roles.rs:156-255 | no role of an ordinary tenant carries a cross-tenant permission |
| Roles.PlatformRolesAreGlobal | crates/knox-core/src/roles.rs:200-242 | the platform roles carry nothing but cross-tenant permissions |
| Roles.PermissionIsNotOidc | crates/knox-core/src/roles.rs:143-154 | no permission key is exempt from narrowing as an OIDC scope |
| Roles.NamesAreDistinct | crates/knox-core/src/roles.rs:1-11 | a role name determines its role |
| Grants.PlatformIsContained | crates/knox-core/src/tenant.rs:240-275 | in no run does an identity of an ordinary tenant hold a cross-tenant permission, or a token or record of such a tenant carry one, under any grant |
| Grants.AssignExactly | crates/knox-core/src/identity.rs:605-650 | an assignment adds exactly the role's permissions, exactly when the token carries them all and tenants agree |
| Grants.HeldFits | crates/knox-storage/src/authorization/store.rs:190-215 | whoever holds a permission holds it through a role of their own tenant |
| Privilege.GrantingCreatesNothing | crates/knox-core/src/identity.rs:605-680 | over any run from any reachable state every permission held in a tenant had a source at the start |
| Privilege.PrivilegeIsConserved | crates/knox-core/src/identity.rs:327-345 | with identity-bearing granters and no live tokens, every permission held afterwards is self-service or was held by someone |
| Exposure.GainedExactly | crates/knox-core/src/identity.rs:605-680 | from any reachable state without live tokens, a permission nobody held can be gained if and only if some client and role of the tenant expose it |
| Exposure.PromiseHoldsExactly | crates/knox-core/src/identity.rs:327-345 | granting creates nothing in a tenant if and only if its clients and roles expose nothing new |
| Exposure.ManagementClientCreates | crates/knox-core/src/tenant.rs:285-330 | with the management client as provisioned, every permission of every role that nobody holds can be gained |
| Exposure.FreshTenantCreates | crates/knox-core/src/tenant.rs:285-330 | from an initial state: so it is in a tenant just provisioned without an administrator |
| RoleStore.AuthorizationStore.AssignByName | crates/knox-storage/src/authorization/store.rs:148-188 | a row is inserted only where role and identity share the tenant |
| RoleStore.AuthorizationStore.CreateUser | crates/knox-core/src/identity.rs:327-345 | the default role and then the requested ones are assigned in order, stopping at the first failure |
| RoleStore.AuthorizationStore.CreateRoles | crates/knox-core/src/tenant.rs:257-270 | the roles are inserted in order up to a failing insert, and no other tenant's role changes |
| RoleStore.AuthorizationStore.ProvisionTenant | crates/knox-core/src/tenant.rs:227-275 | the platform roles exist only in the platform tenant, whose admin gets the listed roles; a failed insert leaves the directory as it was |
| RoleEffects.HeldExactly | crates/knox-storage/src/authorization/store.rs:190-215 | an identity's permissions are exactly those of the roles it has in its own tenant |
| RoleEffects.AssignedExactly | crates/knox-core/src/identity.rs:635-650 | an assignment gives exactly this role to exactly this identity, exactly when it may |
| RoleEffects.UnassignedExactly | crates/knox-core/src/identity.rs:653-680 | a removal takes exactly this role from exactly this identity, exactly when it may; the default role stays |
| RoleEffects.UnassignTakesAway | crates/knox-core/src/identity.rs:653-680 | afterwards the identity holds a permission exactly if another of its roles confers it |
| RoleEffects.CreatedExactly | crates/knox-core/src/identity.rs:273-350 | in every reachable state a new identity has exactly the default role and the roles asked for, or is not created |
| RoleEffects.ProvisionedExactly | crates/knox-core/src/tenant.rs:227-275 | a new tenant has exactly the described roles, its administrator exactly the administrator roles and the default one, and nobody else changes |
| RoleEffects.AdministratorHoldsEverything | crates/knox-core/src/tenant.rs:388-411 | so the administrator starts with exactly the permissions that the tenant's roles confer, all of them |
| RoleEffects.ManagementExactly | crates/knox-core/src/tenant.rs:305-312 | the management client may request exactly every role's permissions and every cross-tenant one |
| RoleEffects.MintedExactly | crates/knox-services/src/oidc/service.rs:270-349 | minting adds one token and one record with exactly the granted scopes, or nothing when none survives |
| RoleEffects.RefreshedExactly | crates/knox-services/src/oidc/service.rs:916-933 | a refresh mints what its record's scopes now earn, no more and no less |
| RoleEffects.ClientMintedExactly | crates/knox-services/src/oidc/service.rs:622-640 | a client's own token carries exactly what it asked for and may, cross-tenant scopes apart |
| RoleRows.ListRoles | crates/knox-storage/src/authorization/store.rs:352-378 | the fold yields each role once and flattening it gives back the rows |
| RoleRows.CollapseThenFlatten | crates/knox-storage/src/authorization/store.rs:352-378 | the same of its specification, roles without permissions included |
| RoleRows.FlattenThenCollapse | crates/knox-storage/src/authorization/store.rs:334-378 | the joined rows of any distinct roles fold back to exactly those roles |
| RoleRows.EnsureCanGrant | crates/knox-core/src/identity.rs:605-631 | the verdict is the one read off the joined rows: unknown role, something missing, or all held |
| KeyRotation.TenantViewsExact | crates/knox-storage/src/key/repository.rs:32-232 | after any run the active and JWKS views answer as the store would |
| KeyRotation.KeyViewsExact | crates/knox-storage/src/key/cache.rs:249-255 | after any run the id and kid views do too, except for keys from before a revoke-all less than 1800 seconds ago |
| KeyRotation.RotationAlwaysSigns | crates/knox-core/src/key.rs:232-277 | at every intermediate point the tenant signs with the key it had, and with the new one from its creation on |
| KeyRotation.GracefulKeepsTokens | crates/knox-core/src/key.rs:261-269 | graceful rotation never stops a verifying token, at any intermediate point |
| KeyRotation.EmergencyStopsExactly | crates/knox-core/src/key.rs:251-259 | emergency rotation at once stops the replaced key's tokens, if there was one, and no other |
| KeyRotation.StaysDownExactly | crates/knox-core/src/key.rs:327-341 | a revoked key's tokens are refused at every point of a run if and only if the run never moves the stored key to another state |
| KeyRotation.RevivedFromTheStart | crates/knox-core/src/key.rs:327-333 | from an initial state: create, revoke, expire, and the tokens verify again |
| KeyRotation.RevokedKeyStaysDown | crates/knox-core/src/token.rs:639-648 | a revoked key's tokens never verify again unless the key is moved to another state |
| KeyRotation.UpdateTakesDown | crates/knox-storage/src/key/repository.rs:170-200 | revoking a stored key takes it down in the store and in the kid view at once |
| KeyRotation.ExpiringRestores | crates/knox-core/src/key.rs:327-333 | expiring a revoked key lets its tokens verify again |
| KeyEffects.TenantAnswers | crates/knox-storage/src/key/store.rs:187-238 | in every reachable state the signing key is the tenant's active key with the largest identifier, and its JWKS lists its unrevoked keys once each, newest first |
| KeyEffects.CreatedExactly | crates/knox-storage/src/key/store.rs:88-130 | a key is created exactly when its tenant has none of that kid, active and newest |
| KeyEffects.UpdatedExactly | crates/knox-storage/src/key/store.rs:288-315 | exactly the stored key of that id takes the state, and is filed anew for 1800 seconds |
| KeyEffects.DeletedExactly | crates/knox-storage/src/key/store.rs:317-328 | exactly the key of that id goes |
| KeyEffects.RevokedExactly | crates/knox-storage/src/key/store.rs:330-341 | exactly the tenant's keys are revoked |
| KeyEffects.FetchedExactly | crates/knox-storage/src/key/repository.rs:57-152 | reading changes no row and files what it fetched for the time of its view |
| KeyRepository.CachedKeys.CreateKey | crates/knox-storage/src/key/repository.rs:32-54 | a new key enters two views and drops the other two of its tenant |
| KeyRepository.CachedKeys.Get | crates/knox-storage/src/key/repository.rs:57-75 | a hit by id answers from the view, a miss fills it from the store |
| KeyRepository.CachedKeys.FindByKid | crates/knox-storage/src/key/repository.rs:78-106 | a hit answers from the view, a miss fills it from the store |
| KeyRepository.CachedKeys.ActiveForTenant | crates/knox-storage/src/key/repository.rs:109-133 | the newest active key, cached only when there is one |
| KeyRepository.CachedKeys.ListForJwks | crates/knox-storage/src/key/repository.rs:136-152 | every key not revoked, newest first, cached even when empty |
| KeyRepository.CachedKeys.Update | crates/knox-storage/src/key/repository.rs:170-200 | a state change refreshes two views and drops the other two |
| KeyRepository.CachedKeys.DeleteKey | crates/knox-storage/src/key/repository.rs:203-219 | a deleted key leaves all four views |
| KeyRepository.CachedKeys.RevokeAllForTenant | crates/knox-storage/src/key/repository.rs:222-232 | all rows are revoked, two views dropped, two left to expire |
| KeyRepository.CachedKeys.RotateKeys | crates/knox-core/src/key.rs:232-277 | the successor exists before the old key is retired |
| ClientVersions.ReadsAnswerLikeStore | crates/knox-storage/src/client/repository.rs:45-128 | after any run both lookups answer exactly as the bare store |
| ClientVersions.KeysAreTwins | crates/knox-storage/src/client/cache.rs:86-131 | after any run a client is cached under both keys with one entry, or under neither |
| ClientVersions.VersionNeverDecreases | crates/knox-core/src/client.rs:366-476 | below its 32-bit limit a version never decreases, and a deleted client never returns |
| ClientVersions.RevokedVersionsStayRevoked | crates/knox-core/src/token.rs:680-693 | no token minted before a rotation or a disabling transition is accepted again, reactivation included |
| ClientVersions.RevokingAdvances | crates/knox-core/src/client.rs:366-380 | what counts as a revoking request advances the version by one |
| ClientVersions.RotationAtTheLimit | crates/knox-core/src/client.rs:426-476 | either rotation lets earlier tokens through exactly at the largest version |
| ClientVersions.RotationWrapsFromTheStart | crates/knox-core/src/client.rs:200-215 | from an initial state: two service calls, creation at the caller's version and one rotation of either kind |
| ClientVersions.RotationsReachTheLimit | crates/knox-core/src/client.rs:426-441 | from an initial state: created at version 1, a client is at the limit after 2^31 - 2 rotations, and the next lets every token through |
| ClientEffects.FetchedExactly | crates/knox-storage/src/client/repository.rs:59-74 | a lookup answers the stored row, changes none, and files what it fetched under both keys for an hour |
| ClientEffects.FetchedByNameExactly | crates/knox-storage/src/client/repository.rs:77-102 | by name it answers exactly the tenant's client of that name |
| ClientEffects.AcceptedExactly | crates/knox-core/src/token.rs:680-693 | a token is accepted exactly while its client is active at no later version |
| ClientEffects.CreatedExactly | crates/knox-storage/src/client/repository.rs:45-56 | a client is created exactly when the tenant has none of that name, with the given columns and active |
| ClientEffects.DeletedExactly | crates/knox-storage/src/client/repository.rs:121-128 | a deleted client is found by neither key and no other changes |
| ClientEffects.ChangedExactly | crates/knox-core/src/client.rs:366-405 | an update writes exactly the given columns and advances the version exactly when an active client is asked to leave that state, which is refused at the largest one |
| ClientEffects.VersionRotatedExactly | crates/knox-core/src/client.rs:426-441 | exactly the version changes, by one within 32 bits |
| ClientEffects.SecretRotatedExactly | crates/knox-core/src/client.rs:444-476 | of a confidential client exactly secret and version change |
| ClientVersions.CachedClients.SetBoth | crates/knox-storage/src/client/cache.rs:86-111 | one entry under two keys |
| ClientVersions.CachedClients.DeleteBoth | crates/knox-storage/src/client/cache.rs:114-131 | the name key is found through the id key |
| ClientVersions.CachedClients.Fetch | crates/knox-storage/src/client/repository.rs:59-74 | a hit answers from the cache, a miss fills both keys |
| ClientVersions.CachedClients.FetchByName | crates/knox-storage/src/client/repository.rs:77-102 | the same by name |
| ClientVersions.CachedClients.CreateClient | crates/knox-storage/src/client/repository.rs:45-56 | a new client enters the store and both cache keys |
| ClientVersions.CachedClients.DeleteClient | crates/knox-storage/src/client/repository.rs:121-128 | row, index entry and both cache keys go |
| ClientVersions.CachedClients.ChangeClient | crates/knox-core/src/client.rs:366-405 | the version advances when an active client is asked to leave the active state |
| ClientVersions.CachedClients.RotateTokenVersion | crates/knox-core/src/client.rs:426-441 | the current version plus one, in 32 bits |
| RedisKeys.PrintInjective | crates/knox-core/src/token.rs:225-239 | every flat key string names one key: the families are disjoint and each is injective |
| RedisKeys.WritesStayInFamily | crates/knox-storage/src/client/cache.rs:36-42 | what one key reads is changed by writes to that key only |
| RedisKeys.EpochKeyInjective | crates/knox-core/src/token.rs:361-363 | epoch keys of different tenants or identities differ, as their ids print without colons |
| RedisKeys.SelfAttemptsApart | crates/knox-core/src/authentication.rs:793-804 | the per-identity attempt counter never meets a per-challenge one |
| FlatStore.TokenCache.GetAndDelete | crates/knox-storage/src/token/cache.rs:55-62 | the second of two callers finds nothing |
| FlatStore.TokenCache.IncrementValue | crates/knox-storage/src/token/cache.rs:65-79 | only the creating increment sets the deadline, and a key that holds no number is left alone |
| FlatStore.TokenCache.TouchValue | crates/knox-storage/src/token/cache.rs:82-93 | refreshing an absent counter changes nothing |
| FlatStore.TokenCache.Execute | crates/knox-storage/src/token/cache.rs:28-141 | a request's commands, sent one by one, take the flat map where the model says |
| FlatStore.CommandSimulates | crates/knox-storage/src/token/cache.rs:28-141 | each command does to the flat map what it does to the typed one of its family |
| FlatServer.RequestIsLocal | crates/knox-core/src/token.rs:225-239 | whatever else the cache holds, a request is answered, and its commands chosen, from the few keys it names |
| FlatServer.FlatStoreSimulates | crates/knox-core/src/token.rs:225-239 | in every run the chain over one flat map, reading and writing by key strings alone, answers every request, and keeps tables and history, as the chain over typed maps does |
| FlatStore.NameInjective | crates/knox-core/src/token.rs:225-239 | with identifiers printed without colons and differently, as some printing does (`NamingExists`), no two slots of the credential chain share a key string |
| AuditPages.WalkIsExact | crates/knox-storage/src/audit/store.rs:58-90 | with inserts between pages, no event is returned twice, every matching event present throughout is returned once, in order |
| AuditPages.WalkAll | server/src/handlers/audit.rs:87-124 | over a fixed table the walk ends with the whole selection |
| AuditPages.Clamp | server/src/handlers/audit.rs:87-90 | the page size is between 1 and 200, the requested one where that is in range, and 50 where none is |
| AuditPages.PageMembers | crates/knox-storage/src/audit/store.rs:62-84 | a matching event below the cursor is on the page or below the next cursor |
| AuditPages.SelectedExactly | crates/knox-storage/src/audit/store.rs:62-84 | exactly the tenant's events within the bounds, with the fields asked for and older than the cursor are selected |
| AuditPages.CursorRoundTrip | server/src/handlers/audit.rs:55-69 | a cursor, base64url of the printed position, comes back as the position it was made from |
| AuthorizeUrl.UrlRoundTrip | server/src/handlers/oidc.rs:504-533 | parsing the rebuilt URL gives back the same request without what demanded the login |
| AuthorizeUrl.RebuildingIsIdempotent | server/src/handlers/oidc.rs:504-533 | rebuilding a parsed rebuilt URL changes nothing |
| AuthorizeUrl.BuildUrl | server/src/handlers/oidc.rs:504-533 | the pushed parts, joined, are that URL |
| AuthorizeUrl.ReturnToSurvives | server/src/handlers/oidc.rs:483-491 | what the login page reads from return_to is that URL, and it is host-relative |
| AuthorizeUrl.ResumedRequestDoesNotBounce | crates/knox-services/src/oidc/service.rs:175-192 | whatever max_age or prompt was asked, the resumed request is never sent to log in again, in any state |
| AuthorizeUrl.ZeroMaxAgeAlwaysDemands | crates/knox-core/src/authentication.rs:722-735 | kept in the URL, max_age=0 would refuse every session older than the current second |
| AuthorizeUrl.DecodeEncode | server/src/handlers/oidc.rs:505-512 | percent-encoding is undone by decoding, for every byte string |
| Base64Url.DecodeEncode | ui/src/lib/pkce.ts:35-41 | the server's decoder undoes the console's encoder for every byte sequence |
| Base64Url.Base64UrlDecode | server/src/middleware/auth.rs:276-313 | the chunk loop computes the specification, errors included |
| Base64Url.Base64UrlEncode | ui/src/lib/pkce.ts:35-41 | the character loop and the replacements compute the specification |
| Base64Url.DecodedLength | server/src/middleware/auth.rs:276-313 | any accepted unpadded input of length n decodes to floor(3n/4) bytes |
| Base64Url.EncodedIsAccepted | crates/knox-services/src/oidc/service.rs:149-164 | 32 bytes encode to 43 URL-safe characters that pass the challenge and verifier checks |
| Base64Url.HonestClientPasses | ui/src/lib/pkce.ts:10-25 | an honest client passes both format checks and answers its own challenge |
| TenantHost.IssuerHostParses | server/src/middleware/tenant_host.rs:52-85 | parsing the host that an issuer names returns its slug |
| TenantHost.ParsedSlugFits | server/src/middleware/tenant_host.rs:52-85 | a slug that is found is valid, unreserved and dot-free, and with the base domain it is the normalised host |
| TenantHost.SlugExactly | server/src/middleware/tenant_host.rs:52-85 | a host names a slug if and only if it is no address and, normalised, is that slug, valid and unreserved, in front of the base domain |
| TenantHost.EmptyBaseFindsNothing | server/src/middleware/tenant_host.rs:64-71 | a base domain that normalises to nothing matches no host |
| TenantHost.IssuersDiffer | crates/knox-core/src/tenant.rs:620-625 | different slugs have different issuers |
| Argon2Gate.HashesAreBounded | crates/knox-core/src/identity.rs:246-260 | in any interleaving the running hashes are at most the permits plus the requests dropped during their hash |
| Argon2Gate.HashesRunExactly | crates/knox-core/src/identity.rs:246-260 | how many hashes can run at once, exactly: that bound is reached for every number of permits and drops |
| Argon2Gate.NeverDeadlocked | crates/knox-core/src/identity.rs:513-542 | with at least one permit, some unfinished request can always go on |
| Argon2Gate.RequestsAreDisciplined | crates/knox-core/src/authentication.rs:780-830 | no request waits for a permit while holding one |
| Argon2Gate.NestingDeadlocks | crates/knox-core/src/identity.rs:513-516 | a request that did would wait forever on one permit |

## Left out

- Cryptography, JWT encoding, JSON and random generation: abstract values; challenges, access tokens and refresh tokens are different types, so confusion between kinds of token is not expressible.
- Failing stores and crashes in the middle of a request: every store call succeeds, except the role inserts of tenant provisioning; a provisioning that fails later (key, client or admin) keeps its tenant in the source and is not modelled.
- Configured lifetimes of 0: Redis refuses to set a key with them; the model sets one that is never readable.
- Finer interleavings of token rotation, session establishment and client updates: the services read and then write without a transaction, so those theorems are about atomic requests.
- Codes already issued when sessions are revoked: revocation does not touch them and neither does the model.
- Login throttling and the reset-request throttle: counters that only refuse more.
- Legacy refresh records without auth_time: the model carries them as records without a login but no run creates one.
- ID tokens and UserInfo: claims chosen from the granted scopes; a failure to sign an ID token after the refresh record was saved is not modelled.
- Expiry of access tokens: in `Grants.dfy` and `ClientVersions.dfy` tokens last forever, which is the harder case.
- The verified-factors cache, the permissions cache and the identity and tenant repositories: the same cache-aside shape as the client and key repositories; the model reads their stores directly.
- Row ids of refresh tokens: a record is identified by its token hash, which is unique.
- Repeated query parameters: the form decoder's error for a duplicate is not modelled; the first value counts, and the rebuilt URL has no duplicates.
- Deleting tenants and roles, and custom roles: no endpoint creates or edits roles, so the provisioned ones are all there are.
- Client listing, key listing and the other list endpoints: reads without state.
- Audit emission, tracing, HTTP status mapping, server wiring, the bootstrap command and the console apart from its PKCE code.
