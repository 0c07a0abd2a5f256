# Accounts, sessions and one-time codes

A Dafny model of the account, session and one-time-code state machine of an authentication service,
with proofs of what its operations keep, alone, in whole runs, and interleaved call by call.

The service signs users up with an e-mail and a password, verifies them with a one-time code, logs
them in with a password or through an OAuth provider, and hands out session tokens that can be
validated, refreshed and logged out. Five SQL tables hold users, credentials, otps, sessions and
provider links, with soft deletes, cascades and id sequences; one of three session caches (memcached,
in memory, none) stands in front of the sessions table; a worker deletes what has expired.

## How the project is laid out

- `Domain`, `Tables`, `CacheStates`, `Usernames`: the records, one function per SQL statement, the
  contents of the three caches, random codes and usernames.
- `Repositories`, `SessionCaches`, `AuthService`: the classes, changed in place, each method proved to
  do to its tables, its cache and its caller what a specification function says.
- `Operations`, `Runs`: these functions, one per service operation, for any environment: the clock,
  the random draws and the set of repository, cache, random and hashing calls that fail; and runs of
  such calls, the cleanup worker and cache evictions. A `Runs.Service` is a configuration together
  with these operations as one transition function; there is one for every configuration.
- `CacheAgreement`, `MemoryAgreement`, `CleanupSimulation`, `PasswordHistory`, `OneTimeCodes`,
  `Supersession`, `RefreshChains`, `UsernameChoice`: theorems over all runs.
- `Outcomes`, `AccountOutcomes`, `CodeOutcomes`, `SessionOutcomes`: for every operation, in every run and
  whatever fails, exactly when it succeeds and what each table holds then, row by row, without the
  functions of `Tables`. `CodeRuns`, `SessionRuns`: exactly when a code can be redeemed and a token is
  accepted, told from the calls of the run.
- `Flights`, `Interleaving`: the service again, one repository call, cache call or clock reading per
  step, with any number of operations in flight that hold local copies between their steps.
  `TokenInvariant`, `TokenSteps`, `AccountInvariant` keep the invariants; `TokenTheorems` and
  `AccountTheorems` draw the conclusions.
- `Granularity`, `Atomicity`: a flight that runs alone ends, and as the atomic operation does.
- `Redemptions`, `OverlapWitness`: when two overlapping flights can both redeem one code.
- `Driver`: a service object that serves a sequence of calls is at every point the run of the
  specification.
- `Singleflight`: the group that ValidateSession and GetUser share. `Interceptors`: chaining and
  authorization of gRPC calls.

## What is idealised

- A bcrypt digest verifies exactly the text it was made from; the empty digest verifies nothing.
  SHA-256 is injective. Session tokens and otp hashes never repeat, and a client presents a token
  only after it was handed out, or one that is never generated. The clock never goes back.
- A repository call is one atomic statement (the user transaction one atomic group) or a failure that
  leaves the tables as they were, except that an id drawn from a sequence stays drawn.
- The verified claims of a provider login are an input. In an atomic call the clock is read once;
  in the interleaved model each reading is a step of its own.

## Where comments and code differ

The model follows the code.

- The comment on the double delete speaks of concurrent readers that put stale entries back
  (cache/session.go:149). No reader ever fills the cache, so an entry dropped by the first pass stays
  gone, and the invariant behind the revocation theorem holds from that pass on.
- The interface says that a token missing in the cache is an error (cache/interface.go:14-15); the
  in-memory cache answers without an error, so a miss there is final (cache/memory.go:27-30).
- ForgotPassword is said to fail for an unknown email (service/auth.go:630); it answers as for a known
  one, with an empty hash (service/auth.go:635-641).
- UpdateVerified is said to be part of a transaction (service/auth.go:259); it is a statement of its own, and a
  failure to delete the code afterwards leaves the user verified.

## Model

| member | source | states |
|---|---|---|
| TokenTheorems.RevokedForGood | service/auth.go:556-607 | End-to-end revocation, over every interleaving of single repository and cache calls: after a Logout or RefreshSession on a token has returned with a clean invalidation, a validation whose first cache read comes later never says the token is valid. |
| TokenTheorems.ValidityIsOneInterval | repository/session.go:81-122 | In every interleaving a hash that the database called valid and then no longer did (replaced, logged out, expired, swept, removed with its user) is never valid again, although a late UPDATE can clear deleted_at on its row. |
| TokenTheorems.BoundedStaleness | cache/session.go:88-97 | Even when invalidations fail: a positive answer names the user the token was issued to, and was read before its expiry plus the delay between fixing the expiry and caching, plus what the one-second minimum adds to a shorter TTL. |
| TokenTheorems.AnswerNeedsUser | service/auth.go:494-503 | A positive answer is only ever made at a moment when the user exists, whatever the cache held. |
| TokenTheorems.LiveIsSettled | service/auth.go:781-803 | A hash the table calls valid is not about to be written by any flight: each hash is written once, by the call that generated it. |
| TokenTheorems.DeadStays | repository/session.go:81-90 | A hash that is settled and dead in the table stays dead through any step of anyone. |
| AccountTheorems.OnlyVerifiedUsersHoldSessions | service/auth.go:259-270 | In every reachable state only verified users hold sessions, every provider link leads to a verified user, and verified holds exactly when the username is set. |
| AccountTheorems.VerificationIsFinal | repository/user.go:112-118 | A verified user is verified in every later state in which it exists. |
| AccountTheorems.ProviderIdentityIsStable | service/auth.go:344-416 | While the users exist, two successful provider logins lead to the same user exactly when they presented the same (provider, sub), whatever email claims came along, in every interleaving. |
| AccountTheorems.ConflictChangesNothing | service/auth.go:363-368 | A provider login ends in a conflict exactly when its identity is unlinked and the email belongs to someone, and then tables and cache are as before. |
| AccountTheorems.ReferentialClosure | migrations/0001_initial_schema.up.sql:2-48 | After any steps, failed transactions and cascades included, the tables are closed under their keys, and an id that existed and was deleted is in no table ever after. |
| Atomicity.FlightAloneIsAtomic | service/auth.go:124-748 | The two granularities agree: for every sequence of choices under the environment, once the flight of an operation has ended with nothing in between, tables and memcached are, and it has answered, what the atomic operation gives on the username draws among those choices; an empty token included. |
| Atomicity.FlightAloneEnds | service/auth.go:124-748 | Alone, the flight of any operation ends within twenty steps, whatever fails and whatever is drawn. |
| CacheAgreement.TransparencyCondition | service/auth.go:471-515 | Over every run of atomic calls, with evictions and any failures but those of invalidations, the service on memcached answers valid, and for the same user, exactly when the uncached service does, if and only if the session TTL is at least one second. Where the validation cannot reach its table, the uncached service rejects it; there a positive cached answer is the one the table would have given. |
| CacheAgreement.TransparentFromOneSecond | cache/session.go:51-118 | From one second on this holds for every validation of every such run, also those whose own lookup fails; an entry of a deleted user is caught by the user lookup because ids are never reused. |
| CacheAgreement.ShortRunDiffers | cache/session.go:88-91 | Below one second a concrete run of two calls tells the two services apart: the cached one accepts a token whose row has expired. |
| MemoryAgreement.MemoryAgreesExceptAtExpiry | cache/memory.go:39-45 | From empty tables and an empty map, every validation on the in-memory cache gives the verdict that the database would give, in every run at every instant, except exactly when a live row expires at that very instant; then the cache still accepts. The cache never fails over, so this includes validations that could not reach the table. |
| MemoryAgreement.ExpiryIsReached | cache/memory.go:39-45 | For every TTL that is not negative a lawful run of two calls reaches that instant, and the two verdicts differ there. |
| MemoryAgreement.AfterMirrors | cache/memory.go:47-61 | After every run each live row is in the map under its own hash with the row as its value, and each entry is a live row, or past its expiry, or its user is gone for good. |
| Driver.ServeAll | service/auth.go:63-105 | A service object that serves any sequence of calls, one after the other, holds what the run of the specification holds and gives the answers of that run. |
| Driver.RunInMemory | cache/memory.go:12-61 | In a process with the in-memory cache, after any lawful sequence of calls from its start, the session objects in the map mirror the rows of the table. |
| CleanupSimulation.CleanupIsUnobservable | worker/cleanup.go:60-77 | Wherever rounds of the cleanup worker stand in a run and whatever they fail to delete, every other call answers as in the run without them, but for the kind of an error. |
| CleanupSimulation.RunsSimulate | repository/session.go:116-122 | The stores of the two runs agree on accounts, on counters, and on the session and otp rows that are undeleted and not past expiry; the caches are equal. |
| PasswordHistory.LoginTakesTheLastPassword | service/auth.go:423-456 | With the store working, Login succeeds exactly when a verified user has the email and the password is the one the run wrote last for that user. |
| PasswordHistory.StoredIsLastWritten | repository/user.go:128-134 | The stored digest of every user is the last that a Signup, provider login or reset of the run wrote, whatever failed on the way. |
| PasswordHistory.ProviderUserNeedsReset | service/auth.go:387-390 | A user created by a provider login logs in with a password exactly when the last thing written for it was a reset to that password; before any reset, with none. |
| RefreshChains.ChainConserves | service/auth.go:530-567 | Along any chain of refreshes inside a run, whatever stands between them, the row keeps id, user and creation time, and its expiry never moves back. |
| RefreshChains.OneTokenAtATime | service/auth.go:552-556 | At no point of the run do two tokens of a chain have a live row. |
| RefreshChains.TokenWindow | repository/session.go:81-90 | A token of a chain has a live row only after it was handed out and before it was refreshed. |
| RefreshChains.NextLink | repository/session.go:35-54 | A refresh of a token that an earlier refresh handed out finds exactly the row which that refresh left behind. |
| RefreshChains.RefreshKeepsCount | repository/session.go:81-90 | A successful refresh leaves every user the same undeleted rows, by id and by number. |
| AccountOutcomes.SignupExactly | service/auth.go:124-199 | Over every lawful run: Signup answers with the otp hash it drew if and only if nobody has the email and its own calls work; then there is one more user, unverified, with that email and password, and a live signup code for it. It is a conflict if and only if somebody has the email. Whatever fails later, the user stays behind exactly when its transaction committed; every other row is as before. |
| AccountOutcomes.ExchangeExactly | service/auth.go:343-417 | Over every lawful run: a provider login answers with its token, good for the TTL, if and only if its own calls work and the identity is linked, or else nobody has the email and one of the first ten draws makes a free name on a prefix of at most 93 bytes. The session is of the linked user, or of a new verified user with that email and the first such name, to whom the identity is then linked. Says also what a failed login leaves behind. |
| AccountOutcomes.LoginExactly | service/auth.go:423-456 | Over every lawful run: Login answers with its token and the expiry one TTL ahead if and only if a verified user has the email and the password and its own calls work; that user has one more session, and the login time unless that UPDATE failed. Unauthorized if and only if there is no such user. |
| AccountOutcomes.DeleteExactly | service/user.go:120-133 | Over every run: DeleteUser succeeds if and only if the user exists and its own calls work; then no table mentions the user, and every row of everyone else in all five tables is as before. |
| AccountOutcomes.DeletedForGood | migrations/0001_initial_schema.up.sql:12-48 | Over every run: once DeleteUser has succeeded, no table mentions the user ever again, GetUser for it is always rejected, and no validation names it, whatever the cache still holds. |
| AccountOutcomes.GetUserExactly | service/user.go:34-69 | Over every run: GetUser tells exactly the users that exist, with the columns of their rows, and says not found of the others. |
| CodeOutcomes.ForgotExactly | service/auth.go:631-689 | Over every lawful run, whatever fails: every otp row of another user or another purpose is exactly as it was, the reset codes of the user with the email are deleted unless that UPDATE failed, and the only new row is the code for that user. Answers with the hash drawn, or the empty one for an unknown email, if and only if its own calls work. |
| CodeOutcomes.VerifyOtpExactly | service/auth.go:218-282 | Over every lawful run, told from the tables: succeeds if and only if an undeleted signup code has the hash and the digits and has not run out, its user is unverified, a free name fits and its own calls work; then that user is verified under the first free name, that code deleted and one session opened, good for the TTL. Each kind of error comes exactly under its condition. |
| CodeOutcomes.ResetExactly | service/auth.go:706-748 | Over every run, told from the tables: succeeds if and only if an undeleted reset code has the hash and the digits and has not run out and its own calls work; then its owner has the new password and that code is deleted. Each kind of error comes exactly under its condition. |
| CodeRuns.VerifySucceedsExactly | service/auth.go:218-282 | Told from the run: VerifyOTP succeeds if and only if a Signup issued the code to a user who is still there and unverified, the digits are right, it has not run out, one of the first ten draws makes a free name that fits, and its own calls work; nothing any other call did in between can prevent it. |
| CodeRuns.ReadyCodeVerifies | service/auth.go:252-282 | The converse of VerifyNeedsSignup: such a code verifies its user under the first free name, with a token good for the TTL. |
| CodeRuns.SignupCodeStays | repository/otp.go:67-89 | The signup code of a user who is still there and unverified stays in the table just as Signup stored it until it runs out, across requests for reset codes, resets, other verifications, removals of others and rounds of the worker. |
| CodeRuns.ResetSucceedsExactly | service/auth.go:706-748 | Told from the run: ResetPassword succeeds if and only if a ForgotPassword issued the code to a user who is still there, the digits are right, it has not run out, no call in between redeemed it or got as far as retiring the codes of the same email, and its own calls work. |
| CodeRuns.ReadyCodeResets | service/auth.go:717-748 | The converse of ResetNeedsForgot: such a code changes the password of its user, and no other. |
| SessionOutcomes.ValidateExactly | service/auth.go:471-515 | Over every run: which answer ValidateSession gives for what the cache and the table hold: an unexpired hit counts whatever the table says, else an undeleted row with expiry strictly ahead does, unless the cache is the in-memory one; the user is told as GetUser tells it. |
| SessionOutcomes.RefreshExactly | service/auth.go:530-567 | Over every lawful run: succeeds if and only if the token has an undeleted row not past its expiry and its own calls work; then that row has the token drawn and a TTL from now, keeps the rest, and no other row changes. Each kind of error comes exactly under its condition. |
| SessionOutcomes.LogoutExactly | service/auth.go:583-614 | Over every run: succeeds if and only if the token has an undeleted row not past its expiry and its own calls work; then that row is deleted and no other changes. |
| SessionOutcomes.CleanupExactly | worker/cleanup.go:60-77 | Over every run: each delete of a cleanup round, if it works, leaves exactly the undeleted rows that are not past their expiry, as they were. |
| SessionRuns.TokenLife | service/auth.go:471-515 | Without a cache: a token that a call handed out is accepted, for the user it was handed out for, if and only if the user is still there, the TTL is not over, nobody has refreshed the token or logged it out in between, and the lookups work. |
| SessionRuns.CachedTokenLife | service/auth.go:471-515 | The same on memcached, for a TTL of at least one second and invalidations that work, whatever was evicted and whichever other cache calls failed. |
| SessionRuns.ServedFromCache | cache/session.go:51-118 | What the cache is for: with both entries stored it answers for the token without the session table until the entry runs out, is evicted or the token is revoked, whatever happens to other tokens. |
| SessionRuns.GrantsAreStored | service/auth.go:781-804 | Every answer that hands out a token hands out the one just drawn, and has stored a live row for it that expires one TTL ahead. |
| SessionRuns.EvictionExactly | cache/session.go:51-60 | An eviction takes exactly the entry of its key and leaves the tables alone. |
| Outcomes.OpeningOutcome | service/auth.go:781-804 | A session is opened if and only if the random source and the INSERT work: one more row, with the expiry that is answered. |
| AccountOutcomes.CreationOutcome | repository/user.go:23-51 | The user transaction commits if and only if email and username are free and none of its statements fails; users without a name do not stand in each other's way. |
| OneTimeCodes.VerifyNeedsSignup | service/auth.go:218-282 | VerifyOTP succeeds only with a code that an earlier Signup of the run told and issued to the very user it then created, the right code and not run out; that user was unverified and is verified after. A code of a removed account does nothing for a later one with the same email. |
| OneTimeCodes.ResetNeedsForgot | service/auth.go:706-748 | ResetPassword succeeds only with a code that an earlier ForgotPassword of the run told and issued to the very user, who existed then with the email asked for, right and not run out; it changes that password and no other. |
| OneTimeCodes.OneSuccessPerCode | repository/otp.go:35-39 | Each otp hash gives at most one success response over a whole run of atomic calls, of whichever operation. |
| Redemptions.SuccessesOverlap | service/auth.go:219-267 | In every interleaving: two flights that succeed with one code, which is not drawn a second time, held it at the same moment, both having read its row and neither having retired it. Flights that do not overlap have one success at most. |
| Redemptions.BothSucceedIffTheyOverlap | service/auth.go:706-748 | The exact condition: two resets with the right code, whose own calls work and which end before it expires, both succeed if and only if at some moment both hold it, whatever anyone else does. |
| Redemptions.HolderSucceeds | service/auth.go:717-748 | A reset that has read the right code succeeds, in time and with its own calls working, whatever anyone else does to the row meanwhile. |
| OverlapWitness.OneCodeTwoSuccesses | service/auth.go:706-748 | For every otp expiry that is not negative, some run from empty tables ends with two resets that both succeeded with one code. |
| OneTimeCodes.VerifiedAtMostOnce | service/auth.go:238-240 | A user becomes verified in at most one call of a run, also when the deletion of the code fails. |
| Supersession.AtMostOneLiveOtp | service/auth.go:663-677 | If soft deletes do not fail, between calls there is at most one undeleted otp per user and purpose. |
| Supersession.ForgotSupersedes | repository/otp.go:75-81 | After ForgotPassword has answered for an email and its soft delete worked, no reset code sent earlier for that email ever works. |
| UsernameChoice.UsernameFound | service/auth.go:752-774 | With store and random source working, a username is found exactly when the prefix has at most 93 bytes and one of the first ten draws is free; it is that of the first such draw, at most 100 bytes, and held by nobody. |
| UsernameChoice.PrefixesKeepApart | utils/crypto.go:81 | Candidates made for addresses with different prefixes are different. |
| Usernames.CandidateSplits | utils/crypto.go:81 | A username splits back into its prefix and its six digits in one way only. |
| Interceptors.WhoGetsThrough | middleware/interceptor.go:13-68 | A call of one of the six public methods reaches its handler as it came; any other does if and only if it carries a token, which is then in the context; otherwise it is unauthorized and nothing behind authorization is entered. |
| Interceptors.TokenOfTheRequest | middleware/interceptor.go:13-32 | Behind interceptors that leave the metadata alone, a request gets to the handler of a method that is not public only if it carries a token itself, and the context behind authorization holds that very token. |
| Interceptors.NoHandlerWithoutToken | middleware/interceptor.go:13-32 | For any relation that the earlier interceptors may alter a context by: a request for a method that is not public gets to its handler only by way of a non-empty token of a context so related to its own. |
| Interceptors.MarkersKeepMetadata | middleware/interceptor.go:74-80 | Interceptors that record and pass the request on satisfy the hypothesis of these two. |
| Interceptors.Chain | middleware/interceptor.go:70-82 | The backwards loop computes the right fold of the interceptors around the handler. |
| Interceptors.ChainsCompose | middleware/interceptor.go:70-82 | Chaining two lists is chaining the first around the chain of the second; the empty chain is the handler itself. |
| Interceptors.FirstIsOutermost | middleware/interceptor.go:74-80 | Interceptors are entered in the order they were given, and the handler last. |
| Interceptors.TokenExtraction | middleware/interceptor.go:36-54 | A token comes through with and without "Bearer " in front; none is found exactly when there is no header or nothing in it. |
| Singleflight.AnswersFit | service/auth.go:477-514 | Whoever is answered gets the answer of a flight of the very key asked for that was running when the call began, and the type assertion on it holds. |
| Singleflight.AnswersAreTold | service/auth.go:477-514 | In every reachable state what a caller got is what its flight was told: of a user the data if the lookup found it, else a failure; of a token a failure, no owner, or the owner with the data that a lookup of that very user found, exactly as check and lookup went. |
| Singleflight.ToldOnce | service/user.go:36-59 | A flight is told once in a whole schedule, so these answers are the only ones. |
| Singleflight.OneFlightPerKey | service/user.go:34-36 | At most one flight of a key is open in any reachable state. |
| Singleflight.WaitingIsShallow | service/auth.go:494 | Only validations wait, and only for user lookups, which wait for nothing. |
| Singleflight.EveryoneIsAnswered | service/user.go:61-69 | No deadlock: from every state of the invariant the flights alone reach, in a bounded number of steps, a state in which nobody waits. |
| Singleflight.StepsRunOut | service/user.go:36-59 | Every step a flight can take leaves fewer of them, so no schedule goes on for ever. |
| Singleflight.Progress | service/user.go:36-59 | While a flight is open, some flight can take a step. |
| Singleflight.RenderInjective | service/user.go:35 | The strings of validation keys and of user keys never collide, nor do those of two users or two tokens. |
| Singleflight.Reachable | service/auth.go:479-514 | The group leads from each key in flight to its one open flight, callers are with a flight of their key, in every reachable state. |
| AuthService.Service.Signup | service/auth.go:124-199 | Does to the tables and answers what Operations.Signup says, the used-up id of a failed transaction included. |
| AuthService.Service.IssueOtp | service/auth.go:177-198 | Stores the otp under its hash and purpose with the configured expiry, or fails without a row. |
| AuthService.Service.CheckSignupOtp | service/auth.go:219-250 | Finds the user of the live signup code or the error of the first check that fails. |
| AuthService.Service.AdmitByOtp | service/auth.go:252-267 | Marks the user verified under a free name and uses up the code; keeps the verification when the last write fails. |
| AuthService.Service.VerifyOTP | service/auth.go:218-282 | Tables, cache and answer are those of Operations.VerifyOtp. |
| AuthService.Service.AdmitByPassword | service/auth.go:424-444 | Admits a verified user whose digest verifies; unknown email, unverified user and wrong password give the same error. |
| AuthService.Service.Login | service/auth.go:423-456 | Tables, cache and answer are those of Operations.Login. |
| AuthService.Service.OpenFor | service/auth.go:446-455 | Opens the session of an admitted user, or passes the error on. |
| AuthService.Service.AdmitByProvider | service/auth.go:343-405 | A linked identity is admitted, an unlinked one with a known email is a conflict, any other is enrolled. |
| AuthService.Service.Enrol | service/auth.go:381-405 | Creates a verified user without a password and links it; a failed link leaves the user. |
| AuthService.Service.ExchangeOAuthCode | service/auth.go:343-417 | Tables, cache and answer are those of Operations.Exchange. |
| AuthService.Service.CreateSession | service/auth.go:781-804 | Inserts the row and then fills the cache, whose failure is ignored. |
| AuthService.Service.StoreSession | service/auth.go:790-798 | The stored row is the record the caller holds, with id and creation time filled in. |
| AuthService.Service.ValidateSession | service/auth.go:471-515 | Asks the cache, the database only on a cache error, and the user lookup for a positive verdict; the state is unchanged. |
| AuthService.Service.CheckToken | service/auth.go:531-544 | Returns a private copy of the live row of the token, or the error of the first check that fails. |
| AuthService.Service.RefreshSession | service/auth.go:530-567 | Tables, cache and answer are those of Operations.Refresh, and no session object that existed before is changed. |
| AuthService.Service.WriteBack | service/auth.go:552-558 | Changes the copy in place and writes the whole row from it. |
| AuthService.Service.Rotate | service/auth.go:546-567 | After a successful write the old entry is dropped and the new one stored. |
| AuthService.Service.Recache | service/auth.go:560-562 | Invalidation first, then the new entry. |
| AuthService.Service.Logout | service/auth.go:583-614 | Tables, cache and answer are those of Operations.Logout. |
| AuthService.Service.EndSession | service/auth.go:601-607 | The row is soft-deleted by id and the entry dropped. |
| AuthService.Service.ForgotPassword | service/auth.go:631-689 | An unknown email gets the same kind of answer with an empty hash; otherwise older reset codes are retired and a new one stored. |
| AuthService.Service.CheckResetOtp | service/auth.go:707-727 | Finds the user of the live reset code or the error of the first check that fails. |
| AuthService.Service.ResetPassword | service/auth.go:706-748 | The password is changed before the code is used up, so a failed deletion leaves a changed password and an error. |
| AuthService.Service.GenerateUniqueUsername | service/auth.go:752-774 | The loop of at most ten tries computes the name that Operations.PickName defines. |
| AuthService.Service.GetUser | service/user.go:34-69 | The data of the user, or the error of the lookup. |
| AuthService.Service.DeleteUser | service/user.go:120-133 | Removes the user with everything that references it, or says what failed. |
| AuthService.Service.Cleanup | worker/cleanup.go:60-77 | Sweeps sessions and then otps; each may fail without the other. |
| Repositories.UserRepository.Create | repository/user.go:23-51 | Both rows or none, with the id drawn in either case. |
| Repositories.UserRepository.InsertRows | repository/user.go:31-48 | The statements of the transaction, and exactly when they all succeed. |
| Repositories.UserRepository.GetByEmail | repository/user.go:53-110 | The one user with the email, with its credentials. |
| Repositories.UserRepository.ExistsEmail | repository/user.go:140-142 | Whether any user has the email. |
| Repositories.UserRepository.ExistsUsername | repository/user.go:136-138 | Whether any user has the name. |
| Repositories.UserRepository.UpdateVerified | repository/user.go:112-118 | Verified and username together; fails on a taken name; no row is no error. |
| Repositories.UserRepository.UpdateLastLogin | repository/user.go:120-126 | Only the last login of that user. |
| Repositories.UserRepository.UpdatePassword | repository/user.go:128-134 | Only the digest of that user; no row is no error. |
| Repositories.UserRepository.Delete | repository/user.go:158-164 | The user and, by cascade, its rows in the other four tables. |
| Repositories.OTPRepository.Create | repository/otp.go:23-33 | A new row unless the user is gone or the hash is taken. |
| Repositories.OTPRepository.GetByOTPHash | repository/otp.go:35-65 | The undeleted row of the hash and purpose. |
| Repositories.OTPRepository.SoftDeleteByOTPHash | repository/otp.go:67-73 | The deletion time of exactly the rows of the hash and purpose. |
| Repositories.OTPRepository.SoftDeleteByUserIDAndPurpose | repository/otp.go:75-81 | The deletion time of exactly the rows of the user and purpose. |
| Repositories.OTPRepository.DeleteExpiredAndSoftDeleted | repository/otp.go:83-89 | Keeps exactly the undeleted rows whose expiry is not before now. |
| Repositories.SessionRepository.Create | repository/session.go:23-33 | A new row, and its id and creation time in the caller's record. |
| Repositories.SessionRepository.GetByTokenHash | repository/session.go:35-54 | A fresh copy of the undeleted row of the hash. |
| Repositories.SessionRepository.Update | repository/session.go:81-90 | Every column but id and creation time from the record, deleted_at included; no row is no error. |
| Repositories.SessionRepository.SoftDelete | repository/session.go:100-106 | The deletion time of the row with the id. |
| Repositories.SessionRepository.DeleteExpiredAndSoftDeleted | repository/session.go:116-122 | Keeps exactly the undeleted rows whose expiry is not before now. |
| Repositories.SessionRepository.IsTokenValid | repository/session.go:124-152 | The owner of an undeleted row with expiry strictly ahead. |
| Repositories.ProviderRepository.Create | repository/provider.go:23-35 | A new link unless the identity is linked, the user is, or the user is gone. |
| Repositories.ProviderRepository.UpdateLastLogin | repository/provider.go:59-68 | Only the last login of the link. |
| Tables.CreateUserKeeps | repository/user.go:23-51 | Keeps the constraints of the schema and undoes nothing that is final (removed users, verification, emails, used ids, deleted codes, row owners): a failed transaction too. |
| Tables.MarkVerifiedKeeps | repository/user.go:112-118 | Keeps the constraints of the schema and undoes nothing that is final (removed users, verification, emails, used ids, deleted codes, row owners): the name stays unique. |
| Tables.TouchUserKeeps | repository/user.go:120-126 | Keeps the constraints of the schema and undoes nothing that is final (removed users, verification, emails, used ids, deleted codes, row owners): a login time. |
| Tables.SetPasswordKeeps | repository/user.go:128-134 | Keeps the constraints of the schema and undoes nothing that is final (removed users, verification, emails, used ids, deleted codes, row owners): a digest. |
| Tables.RemoveUserKeeps | migrations/0001_initial_schema.up.sql:12-48 | Keeps the constraints of the schema and undoes nothing that is final (removed users, verification, emails, used ids, deleted codes, row owners): a removal with its cascades leaves no row without an owner. |
| Tables.InsertOtpKeeps | repository/otp.go:23-33 | Keeps the constraints of the schema and undoes nothing that is final (removed users, verification, emails, used ids, deleted codes, row owners): a failed insert uses up an id. |
| Tables.RetireOtpKeeps | repository/otp.go:67-73 | Keeps the constraints of the schema and undoes nothing that is final (removed users, verification, emails, used ids, deleted codes, row owners): by hash and purpose. |
| Tables.RetireOtpsOfKeeps | repository/otp.go:75-81 | Keeps the constraints of the schema and undoes nothing that is final (removed users, verification, emails, used ids, deleted codes, row owners): by user and purpose. |
| Tables.SweepOtpRowsKeeps | repository/otp.go:83-89 | Keeps the constraints of the schema and undoes nothing that is final (removed users, verification, emails, used ids, deleted codes, row owners): rows leave. |
| Tables.InsertSessionKeeps | repository/session.go:23-33 | Keeps the constraints of the schema and undoes nothing that is final (removed users, verification, emails, used ids, deleted codes, row owners): a failed insert uses up an id. |
| Tables.UpdateSessionRowKeeps | repository/session.go:81-90 | Keeps the constraints of the schema and undoes nothing that is final (removed users, verification, emails, used ids, deleted codes, row owners): as long as the copy names the owner of its row. |
| Tables.RetireSessionKeeps | repository/session.go:100-106 | Keeps the constraints of the schema and undoes nothing that is final (removed users, verification, emails, used ids, deleted codes, row owners): a soft delete. |
| Tables.SweepSessionRowsKeeps | repository/session.go:116-122 | Keeps the constraints of the schema and undoes nothing that is final (removed users, verification, emails, used ids, deleted codes, row owners): rows leave. |
| Tables.InsertLinkKeeps | migrations/0001_initial_schema.up.sql:40-48 | Keeps the constraints of the schema and undoes nothing that is final (removed users, verification, emails, used ids, deleted codes, row owners): both keys of the link table. |
| Tables.TouchLinkKeeps | repository/provider.go:59-68 | Keeps the constraints of the schema and undoes nothing that is final (removed users, verification, emails, used ids, deleted codes, row owners): a login time. |
| Tables.UserByEmail | repository/user.go:53-55 | Some user with the email, or none has it. |
| Tables.LiveOtp | repository/otp.go:35-39 | Some undeleted row of the hash and purpose, or there is none. |
| Tables.LiveSession | repository/session.go:35-41 | Some undeleted row of the hash, or there is none. |
| Tables.EvolvesTransitive | migrations/0001_initial_schema.up.sql:2-48 | What no statement undoes, no sequence of statements undoes. |
| CacheStates.RenderInjective | cache/session.go:136-137 | The two memcached key formats never collide, for any two hashes. |
| CacheStates.TtlSeconds | cache/session.go:88-91 | The largest number of whole seconds in the TTL, and one below a second. |
| CacheStates.EntryLife | cache/session.go:88-97 | An entry lives for the whole seconds of the TTL, one below a second; but the number for a TTL of more than thirty days is read as a Unix time, so such an entry ends at an instant that does not depend on when it was set. |
| CacheStates.EntryExpiryBound | cache/session.go:93-97 | An entry outlives its setting plus the TTL only through the one-second minimum. |
| SessionCaches.MemcachedSessionCache.IsTokenValid | cache/session.go:51-74 | A miss, a failure or a missing client is an error; a hit says the user id stored. |
| SessionCaches.MemcachedSessionCache.SetSession | cache/session.go:78-118 | Two entries in sequence with the clamped TTL; the second only if the first was stored. |
| SessionCaches.MemcachedSessionCache.InvalidateSessionToken | cache/session.go:122-163 | Stops at the first failing delete; returns no error exactly when all four worked. |
| SessionCaches.InMemorySessionCache.GetSessionByToken | cache/memory.go:23-37 | The very object stored, unless it is past its expiry. |
| SessionCaches.InMemorySessionCache.IsTokenValid | cache/memory.go:39-45 | A miss is a verdict, not an error. |
| SessionCaches.InMemorySessionCache.SetSession | cache/memory.go:47-53 | Keeps the pointer; every key stays the token hash of its object. |
| SessionCaches.InMemorySessionCache.InvalidateSessionToken | cache/memory.go:55-61 | Removes the entry and touches no object. |
| SessionCaches.SessionCache.IsTokenValid | cache/noop.go:17-19 | Each implementation gives the verdict of CacheStates.Ask. |
| SessionCaches.SessionCache.SetSession | cache/noop.go:21-23 | Each implementation changes the cache as CacheStates.Remember says. |
| SessionCaches.SessionCache.InvalidateSessionToken | cache/noop.go:25-27 | Each implementation changes the cache as CacheStates.Forget says. |
| Usernames.GenerateOTP | utils/crypto.go:41-54 | As many digits as asked for, each the one drawn, or nothing when a draw fails. |
| Usernames.GenerateUsername | utils/crypto.go:75-89 | Succeeds exactly when the first draw works and the prefix leaves room; the result is that candidate. |
| Usernames.GetEmailPrefix | utils/crypto.go:127-134 | The scan returns the part before the first "@". |
| Usernames.EmailPrefixAt | utils/crypto.go:127-134 | The recursive prefix is the text before the first "@", or all of it. |
| Usernames.IsValidEmail | utils/crypto.go:92-119 | Accepts exactly the addresses of 5 to 255 bytes with a first "@" that has something before it, at least four bytes after it, and a dot among them. |
| UsernameChoice.PickNameFinds | service/auth.go:755-769 | The first free candidate within the tries is the one picked. |
| UsernameChoice.PickedIsFirstFree | service/auth.go:755-769 | Whatever is picked was the first free candidate, and no draw before it failed. |
| Domain.HashTokenInjective | service/auth.go:776-779 | Two tokens share a hash only when they are equal. |
| Flights.SignupStepKeeps | service/auth.go:124-199 | One call per step: keeps the constraints, undoes nothing final, adds and changes no session row, and ends in a failure, a plain success or the opening of a session: Signup. |
| Flights.VerifyStepKeeps | service/auth.go:218-267 | One call per step: keeps the constraints, undoes nothing final, adds and changes no session row, and ends in a failure, a plain success or the opening of a session: VerifyOTP. |
| Flights.LoginStepKeeps | service/auth.go:423-444 | One call per step: keeps the constraints, undoes nothing final, adds and changes no session row, and ends in a failure, a plain success or the opening of a session: Login. |
| Flights.ExchangeStepKeeps | service/auth.go:343-405 | One call per step: keeps the constraints, undoes nothing final, adds and changes no session row, and ends in a failure, a plain success or the opening of a session: ExchangeOAuthCode. |
| Flights.PasswordStepKeeps | service/auth.go:631-748 | One call per step: keeps the constraints, undoes nothing final, adds and changes no session row, and ends in a failure, a plain success or the opening of a session: ForgotPassword and ResetPassword. |
| Flights.DeleteStepKeeps | service/user.go:120-133 | One call per step: keeps the constraints, undoes nothing final, adds and changes no session row, and ends in a failure, a plain success or the opening of a session: DeleteUser. |
| Interleaving.OpenStep | service/auth.go:781-798 | A step moves one flight, takes no time and of the tables changes sessions at most: createSession. |
| Interleaving.SetStep | cache/session.go:78-118 | A step moves one flight, takes no time and of the tables changes sessions at most: SetSession, one entry per step. |
| Interleaving.ValidateStep | service/auth.go:479-503 | A step moves one flight, takes no time and of the tables changes sessions at most: ValidateSession. |
| Interleaving.RefreshStep | service/auth.go:535-558 | A step moves one flight, takes no time and of the tables changes sessions at most: RefreshSession, its two readings of the clock in steps of their own. |
| Interleaving.LogoutStep | service/auth.go:588-604 | A step moves one flight, takes no time and of the tables changes sessions at most: Logout. |
| Interleaving.DropStep | cache/session.go:139-162 | A step moves one flight, takes no time and of the tables changes sessions at most: InvalidateSessionToken, one delete per step. |
| Interleaving.WhereVerdictsComeFrom | service/auth.go:483-503 | A positive verdict enters a validation from a cache entry or a live row, and leaves it only when the user is found. |
| Interleaving.OthersStand | service/auth.go:530-614 | No step of one flight moves another, and a finished flight stays finished. |
| TokenSteps.Reachable | service/auth.go:530-614 | Every reachable state keeps the invariant on tokens: each row and entry carries owner and expiry decided when its hash was generated; a hash in the making is uncached, unread and unknown. |
| TokenSteps.RefreshUpdateTables | repository/session.go:81-90 | After a refresh's UPDATE no row holds the old hash, whatever happened to the row since it was read. |
| TokenSteps.LogoutRetireTables | repository/session.go:100-106 | After a logout's UPDATE every row with the hash is deleted, although it is addressed by id. |
| AccountInvariant.RunKeepsAccounts | service/auth.go:343-416 | Every step keeps the invariant on accounts: links and sessions of verified users only, no two links to one user, and users created but not yet linked belong to one flight each. |
| Granularity.SignupAlone | service/auth.go:124-199 | However the choices fall, the steps of Signup in a row end as the operation. |
| Granularity.VerifyAlone | service/auth.go:218-282 | However the choices fall, the steps of VerifyOTP in a row end as the operation on the draws from the fourth choice on. |
| Granularity.LoginAlone | service/auth.go:423-456 | However the choices fall, the steps of Login in a row end as the operation. |
| Granularity.ExchangeAlone | service/auth.go:343-417 | However the choices fall, the steps of ExchangeOAuthCode in a row end as the operation on the draws from the third choice on. |
| Granularity.ValidateAlone | service/auth.go:471-515 | However the choices fall, the steps of ValidateSession in a row answer as the operation does and change nothing. |
| Granularity.RefreshAlone | service/auth.go:530-567 | However the choices fall, the steps of RefreshSession in a row end as the operation. |
| Granularity.LogoutAlone | service/auth.go:583-614 | However the choices fall, the steps of Logout in a row end as the operation. |
| Granularity.ForgotAlone | service/auth.go:631-689 | However the choices fall, the steps of ForgotPassword in a row end as the operation. |
| Granularity.ResetAlone | service/auth.go:706-748 | However the choices fall, the steps of ResetPassword in a row end as the operation. |
| Granularity.DeleteAlone | service/user.go:120-133 | However the choices fall, the steps of DeleteUser in a row end as the operation. |
| Granularity.DropsForget | cache/session.go:139-162 | The four deletes, stopped at the first failure, come to what Forget says. |
| Runs.AfterIsSound | migrations/0001_initial_schema.up.sql:2-48 | After every run of atomic calls the constraints hold and every hash in the tables was drawn by a call of the run. |
| Runs.NextIsFresh | service/auth.go:781-787 | What the next call draws is in no table. |
| Runs.ApplyTables | service/auth.go:124-804 | No atomic call breaks a constraint or undoes anything final, and new rows carry what the call drew. |
| CacheAgreement.ApplyEffect | service/auth.go:530-614 | Every call keeps the live rows but those it spends, lets expire or removes with their user, adds at most the one it opens, and changes the cache accordingly. |
| CacheAgreement.AfterIsBacked | cache/session.go:78-163 | After every run each unexpired validity entry is backed by a live row with at least its expiry, or its user is gone for good, and nobody else holds its token. |
| CacheAgreement.TablesIgnoreCache | service/auth.go:800-801 | The tables of a run do not depend on the cache. |
| CleanupSimulation.ApplyUnseen | service/auth.go:124-804 | On stores that agree on live rows, each call answers alike, but for the kind of an error, and leaves stores that agree. |
| CleanupSimulation.SweepUnseen | worker/cleanup.go:60-77 | A round of the worker changes nothing that the relation looks at. |
| OneTimeCodes.AfterIsIssued | service/auth.go:168-198 | Every otp row was stored by a call of the run that told its hash, with the code and the expiry of that call, for a user that Signup created or ForgotPassword found in that very call and that has the email it was given. |
| OneTimeCodes.UsedForGood | repository/otp.go:67-73 | A used code stays used through the rest of the run. |

## Left out

- The network exchange with the OAuth provider and the checks of its id token: foreign libraries; the claims are an input.
- The event bus, logging, gRPC and HTTP controllers, request validation: no state that the properties read.
- Lengths of VARCHAR columns other than the username's, and the 64-bit range of ids: an insert refused for either is one of the failures a statement may have.
- Durations in seconds as floating point: exact up to about a hundred days, as the model has them; the 32-bit conversion of a TTL of 68 years or more is not modelled.
- Memcached's whole-second clock: an entry ends at the instant its seconds are over, evictions may end it earlier.
- The otp that loadRelations attaches to a user: nothing reads it; a failure to load it is a failure of the lookup.
- Repository and cache methods that the service never calls (sessions by user, hard delete of a session, otps by user, users by name, cached session bodies).
- The goroutine, ticker and stop channel of the cleanup worker: a round is a step that may happen at any time.
- The circuit breaker, and statements that are committed but reported as failed.
- Users, otps and links as objects: the repositories hand out values; only session records, which the service changes and the in-memory cache keeps, are objects.
- Service calls run one at a time on the class Service, so its ValidateSession calls GetUser directly; the shared singleflight group is the state machine of module Singleflight, and many calls in flight are that of module Interleaving, which has memcached as its cache.
- GetUserByEmail of the service: a lookup without effect.
- GetUser as a flight: it is one lookup, so between its calls nothing can happen; its atomic form stands for it.
- GenerateToken and its hexadecimal encoding: a token is any string that was not drawn before.
