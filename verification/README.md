# Verified model of the exchange's credential lifecycle and the protocols around it

The exchange keeps money behind a handful of small state machines: refresh
tokens that are exchanged for successors, signing keys that are rotated under
running verifiers, administrators with a second factor, a registry whose changes
reach the engine through events, deposit addresses claimed by concurrent calls.
This Dafny project models those machines with the branches, constants and
database statements of the Go code, and proves what they promise over every run
and every interleaving.

`dafny verify dfyconfig.toml` checks everything.

## How to read it

Each module has the same build.

- A value `State` (or `World`, `Tables`), a `Step` (or `Op`, `Write`) per public
  call, or per database statement where calls interleave, and a function `Apply`
  that says what one step does. `Run` iterates it. Fields marked *history* exist
  only so that whole runs can be spoken about; no step looks at them.
- An invariant, a lemma that every step keeps it, and the theorems, which are
  about `Run` on arbitrary step sequences.
- A class with the source's fields, whose methods follow the source statement by
  statement and are proved equal to `Apply`, to the answer the source gives, or
  to an independent description.

| file | models |
|---|---|
| `RefreshTokens.dfy` | Register, Login, Refresh, Logout over the refresh-token table, split at their database statements |
| `KeyRotation.dfy` | the two key slots of a signer, JWKS publication, the caching remote verifier, replicas and verifiers together |
| `Registry.dfy` | registry writes, split at the read outside the transaction: row, audit record, outbox event |
| `ReloadConsumer.dfy` | the engine's coalescing consumer of those events, on top of `Registry.dfy` |
| `Users.dfy` | the user directory, spot accounts, the last-administrator rule |
| `Totp.dfy`, `AdminSessions.dfy` | time steps, sessions, lockout, re-enrolment, freezing, on top of `Users.dfy` |
| `Addresses.dfy` | concurrent claiming of deposit addresses |
| `CommandBus.dfy` | the in-flight limiter, replies and closing of the command bus server |
| `Revenue.dfy` | the three-source revenue report |
| `Rewrap.dfy` | re-sealing secrets under a new master key |
| `RevealStash.dfy` | the one-shot stash for a signing secret |
| `ApiKeys.dfy` | the canonical signing string and the signature check |

## Assumptions

- A committed transaction is one step, a failed one is none. The SQL modelled is
  the repository's own (`internal/*/queries/*.sql`); each function that stands
  for a statement names it.
- Whether a password is right arrives as a flag; email syntax and hashing are not
  modelled.
- Random identifiers (tokens, sessions, users) are fresh. Signatures, message
  codes and ciphers are ideal functions; the only thing assumed of a cipher is
  that what is sealed under a key opens under it. A TOTP code is the set of steps
  it is right for.
- Times are integers on one clock that never runs backwards. The exception is
  `occurredAt` of an event, which is whatever the producer claims.
- Money amounts and counters are unbounded integers.
- A registry run may begin over any rows, because the seed (`internal/registry/seed.go`)
  fills the tables through the same upserts without records; counts, numbers and
  replay are relative to where the run began. A consumer may begin over any
  registry, with any backlog of events.

## What turned out to be conditional

Where a promise holds only under a condition, the condition is proved to be
exact, with a run that breaks the promise outside it.

- Tokens of a new signing key are accepted everywhere exactly when the key was
  published at least 30 seconds before its first use (`LeadIsSafeIff`); a
  single-container rotation that publishes and signs at once is outside it.
- Skipping registry reloads loses nothing exactly when each write commits within
  one second of the time in its event (`DelayIsSafeIff`).
- The registry upserts judge what they did against a row read through the pool
  before their transaction. A commit is recorded exactly (one audit record and one
  event with an exact list for a new version, nothing for a row left alone) if and
  only if it meets the row it had read (`CommitIsExactIff`). Otherwise an edit that
  changes nothing can be audited and announced (`EqualEditsEcho`), a change can be
  announced with an empty list (`EditBackHidesChange`), and a create that lost a race
  overwrites the row (`LostCreateOverwrites`). What every interleaving keeps is `EveryRunIsRecorded`: no version goes
  unrecorded, event versions never go back, and the audit trail rebuilds the tables;
  the excess records are exactly the edits that changed nothing (`AccountsBalanceIff`,
  `EchoIff`).
- The comment on `RemoteVerifier` promises at most one refresh per interval. That
  holds for calls one after the other while the issuer answers (`FetchesSpaced`,
  `FetchesInWindow`). For such calls in general, two fetches closer than the interval
  mean that the earlier got no usable answer (`CloseFetchesMeanNoAnswer`), and an
  outage really gives one fetch per bogus token (`OutageFetchesEveryTime`), because a
  failed fetch does not move `fetchedAt`. Which times and answers keep the rate
  whatever tokens come is decided for a given set by `SpacedForAllTokensIff` and for
  all sets by `AlwaysSpacedIff`. Calls that overlap break it although the issuer
  answers (`OverlappingCallsAllFetch`): a forced fetch does not look at the age again.
- The failure counter is not reset when a lockout ends, so after the first five
  wrong codes every single further one locks for fifteen minutes. The number of
  wrong codes compared is at most five plus one per full lockout period, and that
  is reached from any counter (`WrongCodesBounded`, `WrongCodesReached`).
- A session that has already passed a code may pass another, so the parent of a
  verified session need not be a pending one (`VerifiedCanBeParent`); its line
  still begins with exactly one pending session (`Descent`).
- "Pool empty" means that every address is assigned or held by another claim at
  that moment (`EmptyAnswerIff`).
- `Close` may return while the callback still holds one command it has decoded
  and not handed over (`CloseWaitsForStarted`, `CloseCanLeaveOneWaiting`).
- A status edit reaches the user's oldest spot account only. Every account of the
  user follows exactly when the others already had the new status
  (`EditReachesAllIff`).
- The canonical string identifies a request among those whose timestamp, method and
  URI have no newline (`CanonicalInjective`). Among all requests it identifies exactly
  those with no newline in method, URI and body and no later line of the timestamp
  that could be a method (`StandsAloneIff`).

## Model

| member | source | states |
|---|---|---|
| RefreshTokens.EveryRunKeepsTheLineage | internal/auth/service.go:299-418 | over every interleaving from an empty table: no token is exchanged twice or twice minted, every token is on the chain of exactly one login or registration, only the last token of a chain can be live, and a user never has more live tokens than logins and registrations |
| RefreshTokens.StepKeepsInv | internal/auth/service.go:299-418 | every statement of every call keeps the links forward, injective, within one user and equal to the history of exchanges, and rows only ever gain a revocation |
| RefreshTokens.GrantOf | internal/auth/service.go:363-371 | a token that no login or registration minted has a predecessor, back to one that was minted for the same user |
| RefreshTokens.ChainsDisjoint | internal/auth/service.go:363-371 | the chains of two different logins or registrations share no token |
| RefreshTokens.OneLivePerChain | internal/auth/service.go:355-373 | two unrevoked tokens of one chain are the same token |
| RefreshTokens.ReuseEndsTheFamily | internal/auth/service.go:312-337 | after the family revocation of a reused token the user has no live token and exchanges none until a later login or registration commits, whatever calls were already under way |
| RefreshTokens.ReadDetectsReuse | internal/auth/service.go:312-331 | a call turns against the family exactly when the token it reads had been exchanged before the read |
| RefreshTokens.PresentedAgain | internal/auth/service.go:312-331 | an exchanged token is detected as reused however much later it is presented |
| RefreshTokens.LostRace | internal/auth/service.go:365-371 | a call that read its token before another exchanged it is refused and changes no row |
| RefreshTokens.LoggedOutForGood | internal/auth/service.go:381-394 | over every run after a logout the token is never exchanged, not even by calls that had read it before, and reading it ends in refusal or in the detection of an earlier reuse |
| RefreshTokens.FreezeRefuses | internal/auth/service.go:343-350 | from a freeze to a release every login and every status check of the user is answered as frozen, whatever runs in between |
| RefreshTokens.GrantsAreEarned | internal/auth/service.go:232-295 | only a registration of a new user or a login mints, and only the right password of an active user brings a login that far |
| RefreshTokens.RefreshIssues | internal/auth/service.go:299-378 | an uninterrupted refresh of a live, unexpired token of an active user revokes it, links it to one new token and answers with that |
| RefreshTokens.RefreshDetects | internal/auth/service.go:312-337 | an uninterrupted refresh of a spent token answers invalid and leaves the user no live token |
| RefreshTokens.RefreshRefuses | internal/auth/service.go:303-350 | any other token is refused, as frozen exactly when only the user's status stands against it, and no row changes |
| RefreshTokens.Service.Register | internal/auth/service.go:193-229 | creates the user, active, with one session for the refresh lifetime, or changes nothing for a taken id |
| RefreshTokens.Service.BeginLogin | internal/auth/service.go:232-275 | an unknown user and a wrong password look the same, a frozen user is told after the right password, nothing is stored |
| RefreshTokens.Service.ReadToken | internal/auth/service.go:303-341 | the read and decision outside the transaction: reuse, refusal or going on, for each kind of row |
| RefreshTokens.Service.CommitRotation | internal/auth/service.go:355-373 | the old row revoked and linked with one new row, or nothing at all when it was revoked meanwhile |
| RefreshTokens.Service.Logout | internal/auth/service.go:381-394 | afterwards the row is revoked, without a successor if it was live, and every other row is as before |
| RefreshTokens.Service.Refresh | internal/auth/service.go:299-378 | a whole uninterrupted call is the run of its statements; it issues for a live unexpired token of an active user, says frozen for a frozen one, refuses any other |
| KeyRotation.LeadIsSafeIff | internal/auth/remote_verifier.go:64-101 | over every run, replica, cache age and interleaving, no genuine unexpired token is refused while its call can reach the issuer, if and only if keys are published at least the refresh interval before first use (and kept until their tokens expire) |
| KeyRotation.ShortLeadLosesToken | internal/auth/remote_verifier.go:73-76 | for every shorter lead, a disciplined run in which a verifier refuses a valid token |
| KeyRotation.MissingKeyMeansOldSet | internal/auth/remote_verifier.go:69-81 | when a valid token does not verify, its key is missing and the set is old enough to be refetched |
| KeyRotation.StepKeepsInv | internal/auth/remote_verifier.go:84-101 | deployments, issuing and interleaved verifications keep every cached set complete up to the moment it was read, also when a slower call overwrites a newer set |
| KeyRotation.OnlyIssuedIsAccepted | internal/auth/token.go:314-350 | over every run, whatever is accepted was issued by a signer, is used for its own audience and was within its time bounds when presented |
| KeyRotation.RefetchMeans | internal/auth/remote_verifier.go:77-101 | a forced refetch replaces the set of that verifier if it is answered and leaves it otherwise, and the token is judged by what is there then |
| KeyRotation.CloseFetchesMeanNoAnswer | internal/auth/remote_verifier.go:64-101 | in any run of serial calls no fetch follows an answered one within the refresh interval, so of two closer fetches the earlier got no usable answer |
| KeyRotation.FetchesSpaced | internal/auth/remote_verifier.go:64-101 | serial calls to an issuer that answers fetch at least a refresh interval apart |
| KeyRotation.FetchesInWindow | internal/auth/remote_verifier.go:23-27 | at most one fetch per refresh interval plus one in any window, whatever tokens are presented |
| KeyRotation.SpacedForAllTokensIff | internal/auth/remote_verifier.go:64-101 | for a given set, exactly which call times and answers keep the refresh interval whatever tokens come: expired sets are renewed, and a pause follows any other fetch that fails |
| KeyRotation.AlwaysSpacedIff | internal/auth/remote_verifier.go:64-101 | over sets of any age, the rate is kept for all tokens exactly when every renewal is answered and every refetch that the next call follows within the interval |
| KeyRotation.OutageFetchesEveryTime | internal/auth/remote_verifier.go:92-97 | with the issuer down, any number of bogus tokens at one instant make as many fetches |
| KeyRotation.OverlappingCallsAllFetch | internal/auth/remote_verifier.go:77-81 | any number of overlapping calls that checked the same set each fetch successfully at one instant |
| KeyRotation.TwoFetchesInOneCall | internal/auth/remote_verifier.go:64-97 | exactly when one call fetches twice at the same instant |
| KeyRotation.Signer.WithPreviousKey | internal/auth/token.go:208-218 | publishes the extra key after the signing key, and refuses exactly the signing key itself |
| KeyRotation.Signer.Issue | internal/auth/token.go:239-267 | refused exactly for incomplete claims, otherwise a token every verifier holding the signer's key accepts for its audience until expiry plus skew, and none accepts after |
| KeyRotation.RemoteVerifier.GetKeys | internal/auth/remote_verifier.go:86-101 | serves the cache while it is fresh, replaces it by an answered fetch, keeps and serves it on a failed one |
| KeyRotation.RemoteVerifier.Verify | internal/auth/remote_verifier.go:64-82 | accepts exactly when the set it ends with has the key that signed the token, issuer and audience match, claims are complete and time is within the skewed bounds; refuses over an old set only after a failed refetch |
| Registry.EveryRunIsRecorded | internal/admin/writes.go:360-544 | from any start rows and however calls overlap: every version since has an audit record and, limits aside, an event; records exceed versions by the recorded no-ops only; event versions never go back; start rows and audit after-images rebuild all tables; references stay intact |
| Registry.AccountsBalanceIff | internal/admin/writes.go:379-400 | a row's audit records equal its new versions, and its events are numbered through, exactly when no commit recorded it as written and left it alone |
| Registry.EchoIff | internal/admin/writes.go:379-386 | a no-op is recorded exactly when an admissible upsert meets a row that already is what it asks and that it had not read |
| Registry.CommitIsExactIff | internal/admin/writes.go:364-400 | a commit that succeeds is recorded exactly, with the replaced row's image, if and only if it met the row it had read; a status already set needs none of it |
| Registry.StatusStays | internal/registry/store.go:205-229 | after a successful status write the market has the status asked for over every run until a later commit about it |
| Registry.UpsertStays | internal/admin/writes.go:374-379 | after a successful upsert the row is as asked for over every run until a later commit about it |
| Registry.EqualEditsEcho | internal/admin/writes.go:454-499 | two equal overlapping edits of a fee schedule: the second changes nothing and appends an audit record and a second event numbered 2 |
| Registry.EditBackHidesChange | internal/admin/writes.go:473-482 | an edit over another, back to the row it had read: version 3 is announced with no changed field |
| Registry.LostCreateOverwrites | internal/admin/writes.go:364-385 | a create that read no row and meets one takes it over instead of being refused, and is recorded as a creation |
| Registry.EveryWriteIsAudited | internal/admin/writes.go:118-156 | when every commit meets the row read, versions since the start equal audit records and, limits aside, events, numbered without gap |
| Registry.OneTransaction | internal/admin/writes.go:360-403 | a call that nothing overlaps: a failed or no-op write leaves everything unchanged; a new version comes with exactly one audit record showing every change on both sides and one exact event |
| Registry.UpsertShowsWhatWasRead | internal/admin/writes.go:382-397 | however stale, an upsert's record shows every change from the row it read to the row it left, and the event lists exactly those columns |
| Registry.DifferingExact | internal/admin/writes.go:580-643 | the changed-field list names exactly the writable columns that differ, each once |
| Registry.ImageRoundTrip | internal/admin/writes.go:570-578 | the audit image of a row gives back all its writable columns and its version |
| Registry.DecisionSound | internal/registry/queries/registry.sql:50-137 | whatever was read, a recorded write carries the row's next version or leaves the row as it is, is newer than the row read, and keeps the table's shape and references |
| Registry.PutReplays | internal/admin/writes.go:386-391 | replaying one audit record performs the write it records |
| Registry.EventIsInTable | internal/admin/writes.go:394-400 | the row an event is about exists and is at least as new as the event says |
| Registry.Handler.BeginUpsert | internal/admin/writes.go:363-373 | the read outside the transaction, and which refusal follows it exactly when |
| Registry.Handler.CommitUpsert | internal/admin/writes.go:374-401 | the row asked for at its next version with its records, quiet exactly when it has the version of the row read; refused exactly for bad input, a missing reference or a failing statement, and then nothing changes |
| Registry.Handler.UpsertRow | internal/admin/writes.go:360-544 | a whole call that nothing overlaps answers exactly what happened, and leaves the row as asked when it succeeds |
| Registry.Handler.BeginStatus | internal/admin/writes.go:122-129 | the read whose image the audit record will show, refused exactly for a missing market or a failed read |
| Registry.Handler.CommitStatus | internal/registry/store.go:205-229 | the market has the status asked for, one version on exactly when it differed, recorded then and only then; refused exactly for an unknown status, a missing market or a failing statement |
| Registry.Handler.AskReload | internal/admin/writes.go:547-565 | an audit record and an event with no row changed, or nothing |
| ReloadConsumer.DelayIsSafeIff | internal/app/reload_consumer.go:39-56 | over any registry and backlog, for any order, redelivery, interleaving commits and reload failures, every acknowledged event is in the engine's cache then and ever after, if and only if writes commit within the reload skew of their event time |
| ReloadConsumer.LateCommitIsLost | internal/app/reload_consumer.go:42-46 | for every larger delay, a run that acknowledges a listing the cache never got |
| ReloadConsumer.StepKeepsInv | internal/app/reload_consumer.go:39-56 | at every step the cache covers all events committed before its reload started, and later ones committed after `last` |
| ReloadConsumer.ReadCovers | internal/registry/cache.go:24-45 | what a reload reads covers every event committed before the read, fee schedules through the markets joined to them |
| ReloadConsumer.ReadIsCopy | internal/registry/queries/registry.sql:3-25 | a reload reads every asset, and every market with its fee schedule, as they stand, and nothing else |
| ReloadConsumer.BurstNeedsNoReload | internal/app/reload_consumer.go:25-30 | once a successful reload started late enough, no event of the burst starts another, for ever |
| ReloadConsumer.HandleIsARun | internal/app/reload_consumer.go:39-56 | an undisturbed delivery reads, swaps and acknowledges as one call of the handler |
| ReloadConsumer.Reloader.Handle | internal/app/reload_consumer.go:39-56 | acknowledges covered events untouched; otherwise acknowledges and moves `last` exactly when the reload succeeded |
| ReloadConsumer.Reloader.Reload | internal/trading/engine.go:252-263 | a failed read leaves the cache, a failed runner start leaves it replaced and reports failure |
| Users.EveryRunKeepsTheDirectory | internal/admin/writes.go:268-316 | every run keeps an active administrator and orders each user's events by version; without direct account edits spot accounts that follow their users go on following |
| Users.RefusedIffLast | internal/auth/users.go:75-82 | freezing an active administrator is refused exactly when no other one is active |
| Users.EditReachesAllIff | internal/admin/writes.go:288-298 | a status edit leaves all accounts of a user in the new status exactly when all but the spot account already were |
| Users.Directory.SetUserStatus | internal/auth/users.go:63-92 | which edits are refused, unchanged or done, the last administrator named by the others there are, the new user row, and when sessions end with it |
| Users.Directory.WriteStatus | internal/admin/writes.go:273-316 | user, oldest account and event together, each with the status asked for, or nothing, also when a statement fails |
| Users.Directory.WriteKyc | internal/admin/writes.go:320-352 | the level asked for with its event, refused exactly for a level out of range or a missing user, or nothing when a statement fails |
| Users.Directory.OpenUser | internal/auth/service.go:193-216 | a user with the email and role asked for, active, and a spot account together, refused exactly for a taken email or id |
| Totp.StepIsWindow | internal/auth/totp.go:57-58 | a step is the thirty seconds it numbers, truncating before the epoch |
| Totp.MatchWithinOne | internal/auth/totp.go:67-78 | a code matches exactly when it is right for a step at most one period away, and is charged to the first such step in the order now, before, ahead |
| AdminSessions.PasswordAtTheRoot | internal/auth/adminsession.go:84-143 | over every run, the pending session each session descends from was opened by a right password of its own user |
| AdminSessions.LoginOpensIff | internal/auth/adminsession.go:101-125 | a login opens a session exactly with the right password of an active administrator, and changes nothing otherwise |
| AdminSessions.NoSessionSurvives | internal/auth/adminsession.go:351-363 | no session from before a re-enrolment or a freeze ever resolves again, even once the user is active |
| AdminSessions.FreezeEndsExactly | internal/auth/users.go:75-86 | a directory edit ends exactly the sessions of the administrator it freezes |
| AdminSessions.UsedTokenIsDead | internal/auth/adminsession.go:240-245 | the token that carried an accepted code never resolves again |
| AdminSessions.Descent | internal/auth/adminsession.go:18-22 | every session's line leads back to one pending session of the same user, dead once a code has passed |
| AdminSessions.OneLivePerLogin | internal/auth/adminsession.go:240-249 | of the sessions that come from one login, all but the newest are dead |
| AdminSessions.VerifiedCanBeParent | internal/auth/adminsession.go:191-209 | a verified session's token can itself carry a further code and is retired by it |
| AdminSessions.StepsIncrease | internal/auth/adminsession.go:218-226 | between enrolments accepted steps strictly increase, so no step is accepted twice |
| AdminSessions.SuccessesBounded | internal/auth/adminsession.go:218-238 | between enrolments at most step(t1) - step(t0) + 3 codes succeed from t0 to t1 |
| AdminSessions.WrongCodesBounded | internal/auth/adminsession.go:35-39 | in a run without success or re-enrolment at most five wrong codes plus one per full lockout period are compared |
| AdminSessions.WrongCodesReached | internal/auth/queries/auth.sql:123-132 | from any unlocked counter, waiting out n lockouts gets the counter's allowance plus n wrong codes compared, so the bound is exact |
| AdminSessions.OneMiss | internal/auth/queries/auth.sql:123-132 | a wrong code is compared and counted, and locks for a whole period exactly when the counter comes to the limit or is past it |
| AdminSessions.LifetimeBounded | internal/auth/adminsession.go:371-384 | a pending session resolves for less than ten minutes, a verified one for less than the session lifetime |
| AdminSessions.AnswerMeans | internal/auth/adminsession.go:227-259 | an answer with a session opened exactly that session, pending from a password and verified from a code; any other answer touched none |
| AdminSessions.Service.AdminLogin | internal/auth/adminsession.go:84-143 | one pending session exactly for the right password of an active administrator, the same refusal otherwise with nothing stored |
| AdminSessions.Service.AdminSession | internal/auth/adminsession.go:148-175 | finds the user exactly for a live session of a live administrator |
| AdminSessions.Service.CheckCode | internal/auth/adminsession.go:191-260 | which answer is given exactly when, and what an accepted and a wrong code do to factor and sessions |
| AdminSessions.Service.RecordFailure | internal/auth/adminsession.go:264-287 | counts the miss, locks at the limit, and answers locked exactly when the lock holds |
| AdminSessions.Service.EnrollTotp | internal/auth/adminsession.go:320-368 | for an administrator a fresh secret forgets counter, lock and last step and ends every session of that user and no other |
| Addresses.EveryRunKeepsThePool | internal/chain/addresses.go:49-76 | with any number of concurrent calls: one address per account and one account per address, answers agree for ever, the free pool shrinks by exactly the new accounts, and no race is lost to nobody |
| Addresses.PoolAddsUp | internal/chain/queries/chain.sql:1-3 | free addresses and accounts with an address add up to the pool |
| Addresses.EmptyAnswerIff | internal/chain/queries/chain.sql:20-32 | the pool-empty answer is given exactly when every row is assigned or held by another claim |
| Addresses.StepKeepsInv | internal/chain/addresses.go:54-75 | every statement of every call keeps assignments unique, locks exclusive, and something to read for a call that met the index |
| Addresses.LookUpMeans | internal/chain/addresses.go:49-53 | an account that has an address gets it at once, any other goes on to claim |
| Addresses.LockMeans | internal/chain/queries/chain.sql:20-32 | a claim takes the first row that is free and not held by another claim |
| Addresses.WriteMeans | internal/chain/addresses.go:54-75 | the row becomes the account's unless the account has one by now, which it then reads back |
| Addresses.ReadBackMeans | internal/chain/addresses.go:60-72 | the answer after a lost race is the address the account has |
| Addresses.Assigner.Assign | internal/chain/addresses.go:49-76 | the account's address whatever other claims commit in between, or pool-empty exactly when none is free at the claim |
| CommandBus.EveryRunKeepsTheBus | internal/cmdbus/server.go:129-192 | at most `max` commands in the engine, at most one reply per message, received = replied + running + waiting, at most one waiting |
| CommandBus.RestMeansAnswered | internal/cmdbus/server.go:134-192 | no deadlock: the server rests only when every message has been replied to exactly once and all slots are free |
| CommandBus.EveryMessageIsAnswered | internal/cmdbus/server.go:134-192 | rest is reached: however the server's own steps are chosen, at most `Work(s)` of them do something, and the last of them leaves every message finished with one reply |
| CommandBus.WorkBalances | internal/cmdbus/server.go:134-192 | over any run, deliveries and closing included, effective server steps plus work left equal the work at the start plus five for each decodable message taken in |
| CommandBus.SomethingToDo | internal/cmdbus/server.go:141-192 | while a message is unfinished some step of the server does something |
| CommandBus.CloseWaitsForStarted | internal/cmdbus/server.go:113-127 | Close can return exactly when no handed-over command is unanswered or unfinished, and then all messages are answered exactly when the callback holds none |
| CommandBus.CloseCanLeaveOneWaiting | internal/cmdbus/server.go:113-148 | a run in which Close returns while a decoded command waits |
| CommandBus.Server.Handle | internal/cmdbus/server.go:134-140 | undecodable messages are answered with an error at once, others wait unanswered |
| CommandBus.Server.Admit | internal/cmdbus/server.go:141-147 | a slot and a goroutine exactly when there is room |
| CommandBus.Server.Serve | internal/cmdbus/server.go:143-192 | one reply, an error if the handler panicked, then slot and wait group released |
| Revenue.Revenue | internal/admin/revenue.go:83-162 | the report: sorted, one line per asset with any source, each line equal to the sums over the books |
| Revenue.NothingMissing | internal/admin/revenue.go:44-54 | the three fee columns together are all fee revenue but settlements, and Net is all fees minus gas |
| Revenue.PeriodsAdd | internal/admin/revenue.go:67-71 | reports over adjacent half-open periods add line by line to the report over their union |
| Revenue.SourcelessIsZero | internal/admin/revenue.go:78-82 | an asset without a line contributes zero to every column |
| Revenue.SourceIff | internal/admin/queries/reports.sql:20-100 | an asset has a line exactly when a trade fee, a fee posting other than a settlement's or a gas posting in the period is in it |
| Revenue.TradeAdds | internal/admin/queries/reports.sql:20-46 | what one trade adds to each column |
| Revenue.EntryAdds | internal/admin/queries/reports.sql:47-100 | what one journal entry adds to each column |
| Revenue.ReportUnique | internal/admin/revenue.go:154-161 | the report does not depend on the order in which the map is walked |
| Revenue.RevenuePeriod | internal/admin/revenue.go:172-186 | the bounds given, or now and thirty days before the end; refused exactly for a start given at or after the end |
| Rewrap.Vault.RewrapRows | internal/auth/rewrap.go:20-45 | succeeds exactly with a well-formed keyring, each row opened by the current or a previous key and every statement it needs succeeding; then each row is as it was or the previous key's secret sealed under the current one, and Changed counts the rows the current key had not opened |
| Rewrap.Vault.RewrapAll | internal/app/keys.go:204-254 | the same for the whole transaction, every row then opening under the current key to what it held; nothing changes when anything fails |
| Rewrap.PassPreservesSecrets | internal/auth/rewrap.go:13-19 | every secret is unchanged and opens under the current key alone; rows already under it keep their bytes |
| Rewrap.RotationCarriesSecrets | internal/platform/secretbox/keyring.go:63-91 | rows sealed under the previous key and not opened by the current one come out opening under the current key to the same secrets, all counted as changed |
| Rewrap.SecondPassIsIdle | internal/platform/secretbox/keyring.go:63-79 | a second pass, with the previous key or without it, changes nothing |
| RevealStash.Stash.PutSecret | internal/admin/ui_webhooks.go:51-68 | the stash keeps answering as its history owes it, whatever the eviction loop removes |
| RevealStash.Stash.TakeSecret | internal/admin/ui_webhooks.go:70-81 | returns exactly what the history owes, and forgets the token |
| RevealStash.OwedOnce | internal/admin/ui_webhooks.go:49-81 | what is returned was put at most five minutes ago and not asked for since |
| RevealStash.TakenForGood | internal/admin/ui_webhooks.go:70-76 | a token asked for once returns nothing ever after |
| RevealStash.UntakenStays | internal/admin/ui_webhooks.go:61-65 | an untaken secret stays takeable for five minutes across every other put and take |
| ApiKeys.CanonicalRequest | internal/auth/apikey.go:92-103 | of a request on single lines nothing is lost: cutting the string gives it back, and no other such request has this string |
| ApiKeys.ParseCanonical | internal/auth/apikey.go:87-103 | cutting at the first three newlines gives the request back, method in upper case |
| ApiKeys.CanonicalInjective | internal/auth/apikey.go:87-103 | equal signing strings if and only if equal requests up to the case of the method |
| ApiKeys.StandsAloneIff | internal/auth/apikey.go:92-103 | exactly which requests share their signing string with no other request at all, newlines anywhere included |
| ApiKeys.SignedVerifiesIff | internal/auth/apikey.go:106-128 | what a client signs verifies, in either case, exactly when its timestamp is a number at most thirty seconds from now |
| ApiKeys.OnlySignedVerifies | internal/auth/apikey.go:114-128 | nothing verifies but the signature the client would make, within thirty seconds |
| ApiKeys.SignatureFitsOneRequest | internal/auth/apikey.go:114-128 | under a collision-free code a signature verifies for one request only, at times at most one minute apart |

## Left out

- Matching, trading, ledger postings, withdrawals, deposits, sweeps, reconciliation and market data are not part of this model.
- Statements inside two overlapping Postgres transactions are not interleaved: a commit is one step, so what read-committed isolation shows a family revocation of a rotation that has not committed yet, or one status write of another between its comparison and its update, is not modelled.
- Two code checks, or two status edits, running at the same time for one user: `AdminSessions` and `Users` are about calls one after the other.
- RefreshTokens.Service.Register: does not model password hashing, email syntax or the access token in the session.
- RefreshTokens.EveryRunKeepsTheLineage: "live" is "not revoked", which contains the unexpired tokens; expiry is checked when a token is read.
- KeyRotation.Signer.Issue: scopes, role, method and token identifier of the claims are not modelled.
- KeyRotation.LeadIsSafeIff: the duty to keep a key published until its tokens expire is a hypothesis on deployments, not weighed against shorter retention; keys, JOSE parsing and clock differences between machines are ideal.
- Registry.Handler.CommitUpsert: the `Validate` methods and the precision rule arrive as one flag, and the four upserts share one method because they differ in their tables only; identifiers, timestamps, actor and reason columns are not modelled.
- Registry.EveryRunIsRecorded: seeding again during a run is not a step; a run ends before it and another begins after.
- ReloadConsumer.Reloader.Handle: the relay, stream retention and the limit on deliveries are not modelled; an event that is never acknowledged is outside the theorem.
- AdminSessions.Service.CheckCode: a missing or wrong sealing key (`ErrTOTPDisabled`, a secret that does not open), the audit rows and `last_seen_at` are not modelled.
- AdminSessions.Service.EnrollTotp: the disabled answer without a sealing key is not modelled.
- Users.Directory.WriteStatus: the audit record beside the event is not modelled; `Registry` models that pair.
- Users.Directory.WriteKyc: the audit record beside the event is not modelled.
- Users.Directory.OpenUser: passwords and audit rows are not modelled; Register and BootstrapAdmin differ only in the role, and BootstrapAdmin's early return for an existing email is the refusal.
- Addresses.Assigner.Assign: hexadecimal form and checksum of an address are not modelled, and the order of row identifiers is the order of insertion.
- CommandBus.Server.Serve: authorisation, timeouts and a panic inside the reply itself are not modelled.
- Revenue.Revenue: conversion errors of database numerics, the CSV and the HTTP handlers are not modelled; sorting is by insertion.
- Rewrap.Vault.RewrapAll: the webhook domain, which has two secrets per row, is not modelled; nor is opening the pool, or re-encrypting the wallet keystore file.
- ApiKeys.StandsAloneIff: upper and lower case are those of ASCII.
- API-key creation and listing, scopes, IP allow-lists, HTTP handlers, command-line tools, metrics and tracing carry no invariant of their own.
