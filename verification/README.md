# Access, payload and protocol models

A Dafny model of the parts of this repository whose correctness rests on state
that survives calls, crashes and interleavings:

- **Access gate** (`Credentials`, `Gate`, `Lineage`, `Revocation`, `Usage`,
  `TableLaws`, `Throttle`, `Factors`, `Authority`, `Management`, `OneTime`, `SignIn`,
  `Authenticator`, `Migration`, `VerifierLaws`): channels, local sessions, resume tokens, delegations, password throttling, second
  factors, management operations, the durable authority with its optimistic
  generations, and the move of the verifier into it.
- **Payload extraction** (`Bytes`, `PayloadPaths`, `PathIndex`, `Payload`,
  `PayloadLaws`, `Streams`, `Frames`, `Cpio`, `CpioLaws`, `Tar`, `TarHeaders`,
  `TarArchives`, `SafeExtract`, `SafeLaws`): path normalization, the online path
  index, chunked readers, printers and parsers for CPIO and tar, and the tar
  member checks.
- **Agent protocols** (`Spending`, `Acquisition`, `SpendingRuns`, `Closure`,
  `ClosureLaws`, `Routes`, `RouteLaws`): one-shot control artifacts, cloud closure with session leases, and the route
  operation log.
- **Drivers** (`LocalGate`, `RoundLaws`, `Reset`): the resumable validation round and the
  fenced configuration reset.

`dafny verify dfyconfig.toml` checks the whole project.

## How it is built

Each component has its state as values with one specification function per
critical section, a class whose methods change the same state in place and are
proved equal to those functions, and a run model: a `Step` datatype, `After`,
an invariant, and theorems over every run that starts in the initial state. What
each specification function means is stated a second time without it: laws, mostly
equivalences over the entries, the request and the clock, say exactly when an
operation succeeds, what it leaves and what it leaves alone (`Usage`, `TableLaws`,
`Management`, `VerifierLaws`, `PayloadLaws`, `CpioLaws`, `TarHeaders`, `SafeLaws`,
`Acquisition`, `ClosureLaws`, `RouteLaws`, `RoundLaws`).
A step is one critical section under its lock. Time is a parameter of each step
and need not be monotone unless a theorem says so. Random tokens are parameters
that must be new. Calls into libraries (bcrypt, SHA-256, TOTP, `TrimSpace`,
UTF-8 validity, base64) are function values of which nothing is assumed. Saves
have a fate: stored, failed, or stored but reported as failed.

The gate's struct has two locks. `Gate` holds the fields under `mu` and
`Authenticator` those under `authMu`. A policy change and the revocation after
it are two steps of the run model, because sections under `mu` alone can fall
between them.

## Findings

The code is modelled as it is. Six promises fail on some inputs; each has a
lemma with the failing input or family and the exact condition under which the
promise holds.

- Changing the password while a first initialization was interrupted can lose
  the verifier (`Migration.InterruptedWriteLosesVerifier`,
  `Migration.WriteIsWholeExactlyWhen`).
- The text that binds a local challenge can name two entry scopes when the
  caller's binding contains a colon (`SignIn.BindingNamesScope`). The bindings
  used by `internal/localui/web_entry.go` are random tokens without one.
- A time code that two steps share can be accepted twice in its window when
  another code is accepted in between (`Factors.InterveningCodeReopens`,
  `Factors.WindowIsUniqueExactlyWhen`).
- A recovery code is lost without being accepted when its save is stored but
  reported as failed, so accepted plus remaining codes can fall below eight
  (`OneTime.LostReportCostsACode`, `OneTime.EightAtMost`).
- A regular file spelled `./.` is taken for the payload's root
  (`Payload.RootAsFile`).
- An exception that the validation round does not handle, raised after a
  successful command and before its checks, leaves a recorded pass
  (`LocalGate.TurnTrustExactly`, `LocalGate.PassWithoutSuccess`).

## Assumptions about code outside the model

- Trusted channels are registered under an id that is never a minted access
  session (`trusted-desktop`, `internal/localui/localui.go:635`). Only the scope
  theorems use this.
- The access session id of a registration has no surrounding blanks, as the ids
  minted by the gate and `trusted-desktop` have none.
- Random tokens do not repeat: access sessions, resume and session tokens,
  challenges, credential ids and salts are new when they are drawn.
- Other writers of the configuration never un-spend or re-deliver a pool entry,
  an artifact's digest fixes its expiry, and a pool has no repeated entries
  (`internal/config/config.go:107`).
- A cloud binding's public id is fixed by its owner and environment, its
  generation is repeated in the configuration, approval delivers a binding, and
  re-approval only raises the generation above every closed one.
- Other writers of the configuration leave the route log alone and only raise
  the route revision.
- `config.Update`, a save of the configuration and an update of the SQLite row
  are atomic, and a failed rename has no effect.

## Model

| member | source | states |
|---|---|---|
| Lineage.LineageDeadlines | internal/accessgate/accessgate.go:212-740 | over every run, each live local session, resume token, delegation and open untrusted channel descends from an authentication or a delegation on a trusted channel, and its deadline is at most `resumeTTL` after that root; the one exception is a channel opened without a deadline by a gate that started disabled, before the first revocation |
| Lineage.NoUseAfterDeadline | internal/accessgate/accessgate.go:445-740 | no ordinary credential can be used later than `resumeTTL` after its root, however issue, resume, mint, register, delegate and consume were chained; for channels, if the gate started enabled or was revoked once |
| Lineage.RunBounds | internal/accessgate/accessgate.go:212-249 | from an enabled gate, and after a completed revocation, no open untrusted channel is ever without a deadline |
| Lineage.LogIsHistory | internal/accessgate/accessgate.go:297-424 | every root in the history is that of an authentication or host delegation step that really happened in the run |
| Lineage.RevocationIsTotal | internal/accessgate/management.go:282-300 | after the ordinary revocation no ordinary credential lives, while the access of trusted channels is kept |
| Lineage.OnlyCurrentPolicy | internal/accessgate/management.go:89-100 | between policy changes every live ordinary credential is rooted at the current revision or was derived through a trusted channel, with sections under `mu` interleaved |
| Lineage.AfterFollowsGate | internal/accessgate/accessgate.go:212-740 | the run model moves the tables exactly as the critical sections of the gate do |
| Usage.SessionResolvesExactly | internal/accessgate/accessgate.go:445-462 | over every run, a session issued or minted at some step resolves at `now` exactly under its own token and scope, up to its own expiry, and until a step of the run revokes or collects it |
| Usage.ResolvedIsLive | internal/accessgate/accessgate.go:445-462 | over every run, what resolves at `now` is a local session of exactly that scope, and `now` is at most its expiry and at most `resumeTTL` after its root |
| Usage.NothingAcceptedAfterDeadline | internal/accessgate/accessgate.go:390-606 | over every run, no resolve, mint, resume, redemption, delegation or repeated unlock succeeds later than `resumeTTL` after the root of the credential it accepts; for channels, if the gate started enabled or was revoked once |
| Usage.RedeemedWasGranted | internal/accessgate/delegation.go:19-87 | over every run, a delegation that is redeemed was granted by an earlier step, on an open channel with all rights, for this code space, less than 30 seconds before and within the deadline of its parent |
| Usage.MintsExactly | internal/accessgate/accessgate.go:390-424 | a session is minted exactly from a token up to its expiry, for its binding and scope; it keeps the access session and the earlier of both deadlines |
| Usage.ResumesExactly | internal/accessgate/accessgate.go:576-606 | a channel resumes exactly with a token up to its expiry, for its binding and scope, and takes over its deadline and access session |
| Usage.ConsumesExactly | internal/accessgate/delegation.go:57-87 | a delegation is redeemed exactly within its 30 seconds and before its parent deadline, by a code channel of its user, endpoint, code space and scope, once or again by the same channel |
| Usage.DelegatesExactly | internal/accessgate/delegation.go:19-55 | a delegation is granted exactly on an open channel of the agent with all rights, for a code space of 1 to 64 characters, while fewer than 256 are pending |
| Usage.RegistersExactly | internal/accessgate/accessgate.go:212-249 | a registered channel is open exactly when it is the host's own, the gate is disabled, or a live local session has its access session, whose scope and deadline it takes |
| Usage.LoginIsGood | internal/accessgate/accessgate.go:345-384 | what a login returns resolves under its scope alone up to the shorter lifetime, and its resume token is honoured for the local binding and that scope up to the longer one |
| TableLaws.IssueTouches | internal/accessgate/accessgate.go:297-335 | an issue sets its channel and its token; every other channel is locked exactly past its deadline, every other token is there exactly up to its expiry, and sessions and delegations stay |
| TableLaws.ConsumeTouches | internal/accessgate/delegation.go:57-87 | a redemption sets its channel, token and delegation, a repeat or refusal nothing; the rest ages with the clock alone |
| TableLaws.RevokeScopesExactly | internal/accessgate/scope.go:16-45 | revoking a scope or family removes or locks exactly what carries an access session found in it; the empty scope is refused |
| TableLaws.TimerExactly | internal/accessgate/delegation.go:89-108 | a timer that fires locks its channel exactly while that has the deadline it was armed for |
| Revocation.RevokedIsDead | internal/accessgate/accessgate.go:464-502 | whatever a taking or scope-revoking section returns has no live credential left |
| Revocation.RevocationIsPermanent | internal/accessgate/accessgate.go:677-701 | a dead access session stays dead in every later state if and only if no trusted channel is registered under its id |
| Revocation.OneScopePerSession | internal/accessgate/accessgate.go:231-240 | in every reachable state live credentials that share an access session share one entry scope |
| Revocation.ScopeRevocationIsExact | internal/accessgate/scope.go:16-45 | revoking an entry scope leaves no local session, resume token or open channel in it and leaves every live credential of any other scope untouched |
| Revocation.DelegationSurvival | internal/accessgate/scope.go:16-45 | a pending delegation survives the revocation of its scope exactly when no session, token or channel of the scope carries its access session |
| Throttle.GuessRateBound | internal/accessgate/accessgate.go:753-810 | under the default policy and without a success, any window of T evaluates at most (T + 1800 s) / 210 s wrong passwords per subject |
| Throttle.GuessRateIsAttained | internal/accessgate/throttle.go:46-57 | the bound is tight: ten wrong passwords fit into 300 seconds |
| Throttle.GuessesArePaid | internal/accessgate/accessgate.go:608-634 | the invariant behind the bound: retention, sweeps and cooldowns leave an allowance that pays for every counted guess |
| Throttle.CooldownIsGreatestReached | internal/accessgate/accessgate.go:801-810 | the cooldown in force is that of a greatest reached threshold, and zero exactly when none is reached |
| Throttle.Cooldown | internal/accessgate/accessgate.go:801-810 | the scan that stops at the first unreached threshold computes the cooldown of the longest reached prefix |
| Throttle.Normalize | internal/accessgate/throttle.go:59-88 | the policy in force is never empty, sorted, has only usable steps, and is a permutation of the usable steps configured, or the default |
| Throttle.NormalizeAttemptPolicy | internal/accessgate/throttle.go:59-88 | the filtering loop and sort compute that policy |
| Throttle.NormalizesExactly | internal/accessgate/throttle.go:59-88 | the policy in force has each configured step with positive threshold and cooldown as often as it was configured, in order, and the configured retention or half an hour; without one it is the default |
| Throttle.JudgesExactly | internal/accessgate/accessgate.go:753-799 | a password is accepted exactly when it is right and no cooldown of its subject runs; a wrong one counts on from the failures still remembered, and a record is forgotten exactly once it neither cools nor is recent |
| Factors.StepsIncrease | internal/accessgate/authentication.go:235-263 | for one credential the accepted time steps strictly increase, for arbitrary clocks |
| Factors.NoImmediateReplay | internal/accessgate/authentication.go:203-222 | the time code accepted next does not have the fingerprint of the one just accepted at step s before (s + 2) * 30, so it is not the same code, even if adjacent steps share one |
| Factors.ReplayShape | internal/accessgate/authentication.go:251-262 | a code that comes back inside its window comes back at the second next step, with exactly the step between them accepted in between |
| Factors.WindowIsUniqueExactlyWhen | internal/accessgate/authentication.go:203-262 | over all event lists a code is accepted once in its window if and only if no step above the last one shares its code with the second next step while another, differently digested code can be accepted between |
| Factors.InterveningCodeReopens | internal/accessgate/authentication.go:251-262 | only the last fingerprint is kept: a concrete run accepts a shared code twice in its window with another code in between |
| Factors.RecoveryConserved | internal/accessgate/authentication.go:244-252 | between rotations the recovery hashes accepted and those remaining are, as multisets, those issued |
| Factors.RecoveryCount | internal/accessgate/authentication.go:244-252 | accepted plus remaining recovery codes stay at the number issued |
| Factors.RecoveryOnce | internal/accessgate/authentication.go:244-252 | a recovery code issued once is accepted at most once |
| Factors.MatchingStep | internal/accessgate/authentication.go:208-222 | the loop finds the greatest of the three live steps whose code is the normalized text, or none |
| Factors.TakeRecoveryHash | internal/accessgate/authentication.go:244-252 | the loop removes the first matching hash and reports whether there was one |
| Authority.AuthorityIsCoherent | internal/accessgate/store.go:265-339 | with any number of openers and any fate of their saves: memory is what was stored at its generation, every stored state passes the check made at open, and no revision is the base of two stored commits, whether or not they were reported |
| Authority.NoBlindOverwrite | internal/accessgate/store.go:321-339 | whenever the row changes, the writer held exactly the state it replaced, and the revision never falls |
| Authority.ManageFair | internal/accessgate/management.go:66-280 | no management turn stores an unsound policy, and one that revokes leaves the gate enabled |
| Authority.ManageRevokes | internal/accessgate/management.go:89-100 | a turn revokes exactly when it stored a new revision, by one, and only for recover and commit |
| Authority.ManageIsFactorEvent | internal/accessgate/management.go:101-263 | every management turn moves the factors by a factor attempt (begin), a setup miss (verify), or the commit of a pending operation, and what a rotation, an enrolment and a disabling commit leave is stated |
| Authority.EightCodesPerCommit | internal/accessgate/management.go:175-189 | in one memory, since a setup, replace or rotate commit, recovery acceptances plus remaining hashes stay at eight |
| Authority.ShownCodesCount | internal/accessgate/management.go:180-189 | every recovery code shown for an operation is accepted after its commit |
| Authority.EnrolmentCodeIsSpent | internal/accessgate/management.go:246-253 | after an enrolling commit only later steps count, and its code not again before the window ends |
| Authority.FactorIsEvent | internal/accessgate/authentication.go:224-290 | a factor verification with its save is one event of the factor runs, and succeeds exactly when that event accepts |
| Management.FactorCountsExactly | internal/accessgate/authentication.go:235-263 | a factor is accepted exactly when it is stored, no cooldown runs, and it is an unused recovery code, or a code that the secret shows at a live step after the last one used, unless its text is still in its window |
| Management.FactorLeavesExactly | internal/accessgate/authentication.go:244-276 | an accepted factor clears the failures and spends one recovery code or moves the last step to the greatest shown; a refused one counts one failure more, from zero after half an hour of rest, with its cooldown |
| Management.VerifyExactly | internal/accessgate/management.go:197-233 | a verify turn succeeds exactly for a pending setup or replacement of this binding and revision, verified before, or now, without a cooldown, by the code that its own secret shows at a live step, the greatest of which is recorded |
| Management.VerifyMissExactly | internal/accessgate/management.go:197-226 | a refused code changes no operation; where it was compared and the save not failed, one failure more is stored with its cooldown, and otherwise nothing |
| Management.CommitExactly | internal/accessgate/management.go:197-276 | a commit is stored exactly for a verified operation of this binding and revision that is unexpired, uncommitted and, but for disabling, confirmed as saved, and installs the policy of that operation |
| Management.BeginExactly | internal/accessgate/management.go:107-196 | an operation begins exactly with fewer than 32 pending, as a setup of an unprotected or recovering gate, or with the password and a factor that counts; it is fixed to its binding, revision and five minutes |
| Management.RecoverExactly | internal/accessgate/management.go:89-100 | a recovery raises the revision by one, keeps factors and verifier, and revokes exactly when its save is reported |
| Management.CommitWasPrepared | internal/accessgate/management.go:107-276 | over every run with any openers, a stored commit installs an operation that the same opener began less than five minutes before, for this binding and revision and under the guards of a begin, and, where it enrols, has since seen its authenticator show a code |
| Management.ProtectedChangesByCommit | internal/accessgate/management.go:66-280 | over every run, no step but a commit changes the verifier or the authenticator of a gate with a second factor or a pending recovery, or ends such a recovery |
| OneTime.StepsIncreaseForAll | internal/accessgate/authentication.go:224-263 | over every run with any number of openers, lost reports and reopening: the time steps spent for one credential strictly increase, and the next one is not the same code again inside its window |
| OneTime.RecoveryOnceForAll | internal/accessgate/authentication.go:244-252 | over every such run a hash of an issued recovery list is spent, and so accepted, at most once, unless the list held it twice |
| OneTime.EightAtMost | internal/accessgate/management.go:175-263 | since the last setup, replace or rotate commit in the row, accepted plus remaining recovery codes are eight less the spends stored with a lost report, and eight exactly when there is none |
| OneTime.LostReportCostsACode | internal/accessgate/authentication.go:224-252 | a recovery code whose save is stored but reported as failed is answered as a failed save and gone |
| OneTime.AcceptanceIsReported | internal/accessgate/authentication.go:235-290 | a factor is accepted exactly when its spend counts, is stored and is reported |
| OneTime.ChangeNeedsSpend | internal/accessgate/management.go:108-125 | replace, rotate and disable begin only with such a spend |
| OneTime.WindowsAreHonest | internal/accessgate/authentication.go:253-262 | no run stores a fingerprint window longer than that of its last step |
| SignIn.TwoFactorsBeforeGrant | internal/accessgate/authentication.go:139-198 | over every run, a credential granted while a secret is set was preceded by a call with an accepted password verdict and then one whose factor counted and was stored, under the same challenge, binding and revision; both the factor and the grant come less than five minutes after the password |
| SignIn.ChallengeLivesFiveMinutes | internal/accessgate/authentication.go:139-153 | over every run, whatever tries, verifies, grants or repeats a challenge comes after the one password that opened it and less than five minutes past it |
| SignIn.FiveAttempts | internal/accessgate/authentication.go:154-170 | over every run a challenge takes at most five failed factors, and nothing answers it after the fifth |
| SignIn.AnswerProceedsExactly | internal/accessgate/authentication.go:149-177 | an answer goes through exactly for a challenge of this binding and revision inside its life that is settled, or has a try left for a factor that counts and is stored |
| SignIn.AnswerMovesExactly | internal/accessgate/authentication.go:143-171 | challenges past their life or revision go, the one tried is verified or counts its failure and goes with the fifth, and the others stay |
| SignIn.PasswordProceedsExactly | internal/accessgate/authentication.go:178-197 | a password is answered with a challenge exactly when it is right, a secret is set, fewer than 256 challenges are alive and an id could be drawn, and lets through exactly without a secret |
| SignIn.ValidExactly | internal/accessgate/authentication.go:316-334 | a request is valid exactly when its fields are within their bounds, it uses at most one of password, challenge, delegation and resume token, and at most one code, only with a challenge |
| SignIn.SignInSucceeds | internal/accessgate/authentication.go:57-198 | from any state, an accepted password followed within five minutes by a factor that counts gives the credential issued for it, and asking again while it is usable gives the same one |
| SignIn.OneLineagePerChallenge | internal/accessgate/authentication.go:74-95 | a challenge grants at most one lineage and all its successful retries return that one |
| SignIn.BindingNamesScope | internal/accessgate/authentication.go:118 | the bound text of a local challenge identifies its entry scope if and only if the caller's binding has no colon |
| SignIn.AskedOutcome | internal/accessgate/authentication.go:139-198 | authentication proceeds only through a verified or already granted challenge of this binding and revision, or without a secret; a challenge and a login without one need an accepted password on an enabled gate, and a challenge turns verified only for a factor that counts |
| SignIn.FactorWasAsked | internal/accessgate/authentication.go:149-171 | a challenge turns verified only by its own request, for a factor that counts, and the factor is spent by it |
| Migration.MigrationKeepsVerifier | internal/accessgate/credential.go:105-128 | after any sequence of interrupted first opens the verifier read back is the original one or an error |
| Migration.MigrationConverges | internal/accessgate/store.go:138-363 | an undisturbed open completes the migration exactly when the key is not torn, no half-made database is in the way and the legacy file is readable; the result is the same and opening again writes nothing |
| Migration.InitializedNeedsAuthority | internal/accessgate/store.go:208-233 | once the key is marked initialized, a missing or empty database is an error of every operation and none of them writes |
| Migration.WriteIsWholeExactlyWhen | internal/accessgate/credential.go:52-71 | a new verifier is seen whole or not at all under crashes if and only if no interrupted first initialization is pending, or no verifier was set, or none is being set |
| Migration.InterruptedWriteLosesVerifier | internal/accessgate/credential.go:52-71 | in the failing family there is a crash point after which an empty verifier is read |
| VerifierLaws.OpensExactly | internal/accessgate/store.go:138-363 | from any disk, an undisturbed open succeeds exactly on an authority sealed under its key with a sound policy, or where none was made and the legacy verifier is absent or well formed; the verifier read afterwards is the one read before |
| VerifierLaws.WritesExactly | internal/accessgate/credential.go:52-102 | a verifier is written exactly when it is empty or well formed and, where there is a key, the authority opens and is unprotected; it is what is read afterwards exactly unless a database is left without its key |
| VerifierLaws.ReadsExactly | internal/accessgate/credential.go:105-128 | the verifier read is that of an authority that opens or, before one is made, the legacy one, and everything else is an error |
| PayloadPaths.NormalizeMeans | scripts/safe_extract_tar.py:47-59 | normalization accepts exactly the names that strip to a canonical path, and returns it |
| PayloadPaths.WalkCoversAncestors | scripts/extract_desktop_runtime.py:79-85 | the joined leading components of a path are its ancestors, all of them and nothing else |
| PathIndex.OnlineIsBatch | scripts/extract_desktop_runtime.py:64-113 | admitting entry by entry succeeds exactly when the whole collection is legal, distinct, without a file above another entry, and within both limits |
| PathIndex.OrderDoesNotMatter | scripts/extract_desktop_runtime.py:64-113 | acceptance with its limits is the same for every permutation |
| Payload.InspectIsBatch | scripts/extract_desktop_runtime.py:55-134 | `inspect` accepts a sequence exactly when every entry is legal alone, the paths are distinct, no regular file is above another entry, and count and bytes stay within the limits |
| Payload.InspectIgnoresOrder | scripts/extract_desktop_runtime.py:55-134 | permuting the entries changes nothing about acceptance |
| Payload.ImpliesPosthocCheck | scripts/safe_extract_tar.py:131-138 | acceptance implies the later check that no leading part of a file's path is a file |
| Payload.RootAsFile | scripts/extract_desktop_runtime.py:66-72 | the root is accepted as a regular file exactly when it is spelled `./.` |
| PayloadLaws.InspectsExactly | scripts/extract_desktop_runtime.py:55-134 | a payload is admitted exactly when each entry is legal at the path its name spells, paths are distinct, none lies below a regular file, and there are at most 100,000 entries of at most two gibibytes |
| PayloadLaws.PassesExactly | scripts/extract_desktop_runtime.py:73-134 | the checks on one entry, on its mode bits, links, size and owner: no gateway, no privileged mode but the sandbox helper's 4755, and runtime files root-owned with their exact permissions |
| PayloadLaws.ExtractsExactly | scripts/extract_desktop_runtime.py:136-166 | an admitted payload is complete exactly when it is not empty and holds every runtime file; each is staged with its own permissions and bytes, and nothing else is |
| Frames.OffsetsAligned | scripts/extract_desktop_runtime.py:169-357 | frames that keep an alignment keep every header of the stream aligned |
| Frames.LoopTakesPrinted | scripts/extract_desktop_runtime.py:289-357 | a stream of recognized pieces and an end is parsed into exactly their members |
| Frames.TakesWhatIsInspected | scripts/extract_desktop_runtime.py:341-356 | all members are taken exactly when `inspect` admits all entries, each with its name, mode and bytes |
| Cpio.ArchiveRoundTrip | scripts/extract_desktop_runtime.py:456-478 | for printable records, the printed archive, and the one ending after its trailer, is accepted exactly when `inspect` admits the records, and gives back their names, modes and bytes |
| CpioLaws.EitherFormRoundTrip | scripts/extract_desktop_runtime.py:289-357 | archives of either magic, with any inodes, times and devices, are accepted exactly when `inspect` admits their records, and give back names, modes and bytes |
| CpioLaws.HeaderExactly | scripts/extract_desktop_runtime.py:293-321 | a header is read exactly when it starts with one of the two magic texts, its thirteen fields follow in eight lower-case hex digits, the plain form has no checksum, and the name has 2 to 16,384 bytes |
| CpioLaws.TrailerExactly | scripts/extract_desktop_runtime.py:327-340 | a trailer ends the archive exactly when it is of the archive's form, its fields are blank, and what follows is empty or zeros up to the next block |
| Cpio.FieldsRoundTrip | scripts/extract_desktop_runtime.py:302-316 | thirteen fields below 2^32 printed as eight hex digits each are read back |
| Cpio.EntryRoundTrip | scripts/extract_desktop_runtime.py:456-473 | a printed entry is recognized in front of any stream |
| Cpio.HeadersAligned | scripts/extract_desktop_runtime.py:289-357 | every CPIO header starts at a multiple of four |
| Cpio.ExtractCpioPayload | scripts/extract_desktop_runtime.py:289-357 | however the source splits its reads, the payload is accepted exactly when the parser accepts its bytes, with the same progress |
| Cpio.ExtractMember | scripts/extract_desktop_runtime.py:341-357 | a member passes exactly when its bytes and padding are there, its checksum is the byte sum mod 2^32 if one is required, and it is admitted |
| Cpio.FinishArchive | scripts/extract_desktop_runtime.py:327-340 | the trailer ends the archive exactly when its fields are canonical and the rest is zero and empty or up to a block |
| Cpio.ReadNamed | scripts/extract_desktop_runtime.py:293-326 | a header with its name, magic, hex and length checks, and the padding behind it |
| Tar.HeadersAligned | scripts/extract_desktop_runtime.py:169-250 | every tar header starts at a multiple of 512 |
| Tar.AcceptedIsWhole | scripts/extract_desktop_runtime.py:178-183 | an accepted tar payload is a whole number of blocks |
| TarArchives.ArchiveRoundTrip | scripts/extract_desktop_runtime.py:169-250 | printed ustar and GNU records, prefixes and long names among them, followed by zeros, are accepted exactly when the zeros are whole blocks, at least two and at most a mebibyte more, the headers are at most 100,000 and `inspect` admits the records; they give back names, modes and bytes |
| TarArchives.HeaderRoundTrip | scripts/extract_desktop_runtime.py:186-236 | a printed header, with its octal fields, name and prefix, checksum, type and magic, is read as its record |
| TarHeaders.OctalMeans | scripts/extract_desktop_runtime.py:280-286 | a numeric field is read as a number exactly when it holds its octal digits, with blanks on either side |
| TarHeaders.ChecksumExactly | scripts/extract_desktop_runtime.py:253-258 | a header is refused unless its checksum field holds, in octal, the sum of its bytes with that field taken as spaces |
| TarHeaders.ReadIsAnnounced | scripts/extract_desktop_runtime.py:186-236 | whatever entry a header is read as, its checksum, format, type, link, name and numbers announce |
| TarHeaders.LongNameExactly | scripts/extract_desktop_runtime.py:201-217 | a GNU long name is read exactly where a GNU header of that type, name and size announces one and none is pending |
| TarArchives.WrongChecksumIsRefused | scripts/extract_desktop_runtime.py:253-258 | an archive is refused at a first header with a wrong checksum |
| Tar.ExtractTarPayload | scripts/extract_desktop_runtime.py:169-250 | however the source splits its reads, the payload is accepted exactly when the block parser accepts its bytes, with the same progress; what the parser accepts is `TarArchives.ArchiveRoundTrip` and `TarHeaders.ReadIsAnnounced` |
| Tar.ExtractHead | scripts/extract_desktop_runtime.py:200-250 | a GNU long name is kept for the next entry; an entry is inspected, staged or skipped, with its padding |
| Tar.ReadZeroBlock | scripts/extract_desktop_runtime.py:175-184 | the first zero block is passed, the second must end the archive in bounded, block-aligned zeros |
| Streams.Source.Read | scripts/extract_desktop_runtime.py:397-405 | any chunking: a read hands out a prefix, non-empty unless at the end, and counts it |
| Streams.ReadExact | scripts/extract_desktop_runtime.py:360-367 | returns exactly the next bytes, or fails exactly when there are fewer |
| Streams.DiscardExact | scripts/extract_desktop_runtime.py:408-414 | succeeds exactly when enough bytes are left, and consumes them |
| Streams.DiscardZeroTail | scripts/extract_desktop_runtime.py:417-427 | succeeds exactly when the rest is within the limit and all zero |
| Streams.MemberReader.Read | scripts/extract_desktop_runtime.py:370-394 | never reads past the member, and keeps the running checksum at the byte sum mod 2^32 |
| Streams.WriteSelected | scripts/extract_desktop_runtime.py:136-158 | stages exactly the member's bytes with its permissions, or nothing |
| Streams.TakeMember | scripts/extract_desktop_runtime.py:341-350 | a member is taken exactly when its bytes are there and `inspect` admits it |
| Payload.RuntimePayloadExtractor.Inspect | scripts/extract_desktop_runtime.py:55-134 | accepts exactly the entries the specification admits and leaves the index it says |
| Payload.RuntimePayloadExtractor.DescendsFromFile | scripts/extract_desktop_runtime.py:79-85 | the walk over leading components finds a file above the path exactly when there is one |
| Payload.RuntimePayloadExtractor.HasDescendant | scripts/extract_desktop_runtime.py:86-91 | the scan finds an entry below the path exactly when there is one |
| Payload.RuntimePayloadExtractor.Finish | scripts/extract_desktop_runtime.py:160-166 | complete exactly when something was inspected and the staged names are the required ones |
| SafeExtract.BoundedReader.Read | scripts/safe_extract_tar.py:31-44 | hands out the stream in order, never more than the limit in all, and fails only when there is more |
| SafeExtract.ValidateMembers | scripts/safe_extract_tar.py:62-171 | accepts exactly the archives that meet the whole-archive conditions, whatever the order of their members; a path that leads nowhere below the destination is refused |
| SafeLaws.AcceptsExactly | scripts/safe_extract_tar.py:62-171 | an archive is accepted exactly when it is not empty, its members are legal at the distinct paths they spell, within both limits, no file lies below a file, and they are as listed |
| SafeLaws.MemberExactly | scripts/safe_extract_tar.py:74-127 | a member is legal exactly at a path it spells below the one top directory, without extended headers or privileged bits, as a directory or a plain file of a size that is not negative |
| SafeExtract.OnlyRootStays | scripts/safe_extract_tar.py:166-170 | of the normalized paths, the destination check refuses `.` and no other |
| SafeExtract.InspectMembers | scripts/safe_extract_tar.py:74-127 | the loop passes exactly when all members are legal and distinct and the limits hold, and gathers their paths |
| SafeExtract.FindFileAbove | scripts/safe_extract_tar.py:131-138 | finds a file used as a directory exactly when there is one |
| SpendingRuns.SpentAtMostOnce | internal/agent/control_artifact_source.go:222-277 | over every run with crashes, failed saves, duplicate leases and pruning, the spend of a pool entry is committed at most once |
| SpendingRuns.SpendsOncePerArtifact | internal/agent/control_artifact_source.go:291-373 | over every run, a ledger creation for an artifact, of the pool or the data plane, succeeds at most once until its expiry and retention have passed |
| SpendingRuns.AcquiredWasNeverSpent | internal/agent/control_artifact_source.go:151-215 | an acquisition never returns an entry with a tombstone, nor one that was ever durably spent or committed |
| SpendingRuns.TombstonesStay | internal/agent/control_artifact_source.go:428-476 | the tombstone of a durably spent artifact stays until its expiry and retention have passed |
| SpendingRuns.LedgerStaysBounded | internal/agent/control_artifact_source.go:311-341 | a spend never takes the ledger above 65,536 entries |
| SpendingRuns.CompactionKeepsUsable | internal/agent/control_artifact_pool.go:563-581 | compaction never drops a usable entry |
| Acquisition.AcquiresExactly | internal/agent/control_artifact_source.go:151-215 | with reported saves, an acquisition succeeds exactly when some entry of the stored pool is unspent, unrevoked, without a tombstone, of 1 to 65,536 bytes and expires after the horizon, and returns the first of them; otherwise, and only then, the pool is stored as exhausted |
| Acquisition.AcquiresOnlyGood | internal/agent/control_artifact_source.go:151-215 | whatever becomes of its saves, an acquisition returns nothing but that entry, calls the pool empty only without one, and reports a failed save only when one failed |
| Acquisition.RefusesExactly | internal/agent/control_artifact_source.go:151-192 | without a configuration, rejected, without a pool, of another generation, with a malformed digest, or to be relinked: nothing is offered, and the error says which |
| Acquisition.OrderedExactly | internal/agent/control_artifact_pool.go:563-581 | putting the pool in order burns live entries under a tombstone, blanks what is spent, revoked or expired, and drops removable entries only beyond eight |
| Acquisition.BeginsExactly | internal/agent/control_artifact_source.go:300-373 | a spend is recorded exactly for a well-formed artifact with the right digest, without a kept tombstone, below 65,536 kept ones, when written and synced; the tombstone is retained an hour past the expiry |
| Acquisition.FinishesExactly | internal/agent/control_artifact_source.go:227-277 | the pool's side of a spend is stored exactly when the first entry with all data of the lease is unspent in a configuration of its generation, and burns that entry alone |
| Acquisition.SpendWorks | internal/agent/control_artifact_source.go:151-277 | from any pool in force with a good entry, acquisition, ledger and pool, none failing, spend the first good entry |
| Spending.SpendLedger.Prune | internal/agent/control_artifact_source.go:428-476 | removes exactly the well-formed tombstones past their retention, and counts what remains |
| Spending.SpendLedger.CreateSpendLedgerEntry | internal/agent/control_artifact_source.go:311-373 | create-new: what the ledger becomes for each way the operation can fail |
| Spending.ArtifactPool.AcquireControlArtifactEntry | internal/agent/control_artifact_source.go:151-215 | reconciles, orders and stores the pool, then offers an entry: which one, and when, is `Acquisition.AcquiresExactly` |
| Spending.ArtifactPool.Reconcile | internal/agent/control_artifact_source.go:405-426 | burns exactly the live entries that have a tombstone |
| Spending.ArtifactPool.CompactEntries | internal/agent/control_artifact_pool.go:563-581 | drops the first removable entries beyond the pool limit, in order |
| Spending.ArtifactPool.CommitSpendLedger | internal/agent/control_artifact_source.go:300-309 | refuses a digest that is not that of the bytes, else creates the tombstone |
| Spending.ArtifactPool.CommitSpendConfig | internal/agent/control_artifact_source.go:227-277 | burns the first entry the lease names and stores it; after a failed save the memory is burned all the same |
| Closure.ReceiptsAreTruthful | internal/agent/cloud_closure.go:30-79 | once a receipt is queued, then and after any further steps no session of its binding with an equal or lower generation is registered |
| Closure.LeasesAreConserved | internal/agent/agent.go:1237-1298 | every admitted lease is with its handler, with exactly one session, or released, never two of these, and none is released twice |
| Closure.NothingAfterShutdown | internal/agent/agent.go:1947-1954 | after shutdown began no session is ever added |
| ClosureLaws.FencesExactly | internal/agent/cloud_closure.go:30-46 | a closure goes on exactly when it is complete, meant for this runtime and binding and owned; it withdraws approval and pool exactly when it covers the binding in force, and changes nothing else |
| ClosureLaws.AdmitsExactly | internal/agent/agent.go:1243-1281 | a session is added exactly on a running, unrejected agent whose configuration is the handler's and approved, for a free channel, with the handler's valid binding; otherwise the lease is released |
| ClosureLaws.QueuesExactly | internal/agent/cloud_closure.go:56-79 | a receipt is acknowledged exactly when the owner is in force, the save is reported and it is queued already or fewer than 4,096 are |
| ClosureLaws.ClosureCompletes | internal/agent/cloud_closure.go:30-79 | a closure meant for this owner, once its sessions ended, is drained and queued |
| Closure.CloudAgent.AdmitSession | internal/agent/agent.go:1243-1281 | admits exactly under an approved, current configuration and a free channel; otherwise the lease is released |
| Closure.CloudAgent.RemoveActiveSession | internal/agent/agent.go:1834-1850 | removes the session and releases its lease |
| Closure.CloudAgent.BeginSessionShutdown | internal/agent/agent.go:1947-1954 | sets the stopping flag and nothing else |
| Closure.CloudAgent.FenceClosure | internal/agent/cloud_closure.go:30-46 | revokes the approval exactly when the closure covers the current binding |
| Closure.CloudAgent.CloseCloudSessions | internal/agent/gateway_cloud.go:39-57 | names exactly the sessions the closure covers, and is done exactly when there are none |
| Closure.CloudAgent.QueueClosureReceipt | internal/agent/cloud_closure.go:56-79 | queues a receipt once, within the limit, and only when saved |
| Routes.RouteLogIsSound | internal/agent/cloud_route.go:65-236 | over every run a revision is the base of at most one commit, ids are unique, the log has at most 32 records, operations only move from awaiting to committed or cancelled, and a commit raises the revision by exactly one without overflow |
| Routes.RecommitIsIdempotent | internal/agent/cloud_route.go:165-174 | over every run and whatever comes in between, committing again gives the same answer and changes nothing exactly while the record is in the log, that is until 32 records have been stored after it; a record that reuses the id later is based on a later revision, and so is what a repeated commit then commits |
| RouteLaws.ChangeWasPreflighted | internal/agent/cloud_route.go:65-195 | over every run, a commit that changes anything names a record an earlier step stored for a route that was valid and reached the cloud at that revision, association and coordinates, has not expired, and makes it the next route |
| RouteLaws.PreflightExactly | internal/agent/cloud_route.go:65-151 | a request is recorded exactly when it is new and its route is valid, was reached and is still the one probed; it joins the newest 31 records, and a repeat is answered with its record |
| RouteLaws.CommitExactly | internal/agent/cloud_route.go:155-195 | a record is committed exactly when confirmed, awaiting, unexpired and of the association, revision and coordinates in force; nothing but the route and its record changes |
| RouteLaws.PreflightThenCommit | internal/agent/cloud_route.go:65-195 | a preflighted route can be committed until it expires |
| Routes.RouteStore.PreflightCloudRoute | internal/agent/cloud_route.go:65-151 | answers an earlier request, refuses a conflict, or appends one awaiting record |
| Routes.RouteStore.CommitCloudRoute | internal/agent/cloud_route.go:155-195 | sets the selected route at the next revision and marks the record committed, under all guards |
| Routes.RouteStore.CancelCloudRoute | internal/agent/cloud_route.go:215-236 | cancels an awaiting operation and leaves any other as it is |
| Reset.NeverPartial | cmd/redeven-gateway/configuration_reset.go:115-150 | whatever subset of unsynced operations survives a crash, without the marker the configuration is whole in the root or wholly in the archive |
| Reset.UndisturbedCompletes | cmd/redeven-gateway/configuration_reset.go:73-150 | a reset of any number of files whose operations succeed completes |
| Reset.GatewayState.ResetGatewayConfiguration | cmd/redeven-gateway/configuration_reset.go:73-150 | no operation exposes a partial configuration to a crash; restored means the root is as it was, completed means all is archived and unfenced; which outcome it is follows from the operations that succeed |
| Reset.GatewayState.Restore | cmd/redeven-gateway/configuration_reset.go:123-128 | moves the files back in reverse order and says whether all went back, which is exactly when each move back succeeds |
| Reset.GatewayState.MoveAll | cmd/redeven-gateway/configuration_reset.go:120-139 | moves every file exactly when all moves succeed, or stops at the first that fails, restored exactly when all went back and was settled, else with the fence standing |
| LocalGate.RoundsAreSound | scripts/local_gate.py:215-333 | over any history of changed sources and runs cut off after any write: when `run` returns 0 every selected group has a successful execution, in this run or recorded before the crash of an earlier one, whose inputs before and after equal those recomputed at the end |
| LocalGate.TurnsAreFounded | scripts/local_gate.py:232-312 | every write of the loop records only passes whose successful execution ended before that write |
| LocalGate.TurnTrustExactly | scripts/local_gate.py:268-306 | a turn that reaches its command keeps every recorded pass founded exactly when no unhandled exception cuts off the checks after a success |
| LocalGate.PassWithoutSuccess | scripts/local_gate.py:289-301 | a concrete run in which such an exception leaves a pass, and the next round completes on it |
| LocalGate.RotationCoversSelection | scripts/local_gate.py:221-231 | the round starts at the cursor and visits every selected group exactly once |
| RoundLaws.UndisturbedCompletes | scripts/local_gate.py:215-333 | over an unchanged source, with stable inputs and commands that succeed, a round returns 0 from any state |
| RoundLaws.TurnEndsExactly | scripts/local_gate.py:240-312 | a turn goes on exactly when its group had passed with these inputs or succeeds now, returns 130 exactly when a signal cut it off, dies exactly when the source moved, inputs could not be read or a foreign exception came, and otherwise fails with 1 to 125 |
| RoundLaws.TurnRecords | scripts/local_gate.py:240-306 | a group that succeeds is recorded as passed with the inputs in force, and kept under their digest; one cut off is interrupted and one that fails failed, without a pass |
| RoundLaws.CompletesExactly | scripts/local_gate.py:314-333 | the closing check returns 0 exactly when each selected group's record holds a pass for the inputs read now over the same source, and then records their digests; it returns 1 exactly at a first group without one, which the cursor then names |
| RoundLaws.StartsExactly | scripts/local_gate.py:219-227 | a round starts at the cursor, or where the profile stood, if that group is selected and the run is not forced, and else at the first |
| LocalGate.Validation.RunRound | scripts/local_gate.py:215-333 | what a round writes, how it ends and which executions succeed in it |
| LocalGate.Validation.RunGroup | scripts/local_gate.py:240-312 | one turn: point the cursor, skip a cached pass, or attempt |
| LocalGate.Validation.RunAttempt | scripts/local_gate.py:266-301 | preparation, command and checks, with the record written in every ending |
| LocalGate.Validation.Conclude | scripts/local_gate.py:314-333 | recomputes every selected group and completes only if each holds a pass for it |
| AccessGate.Gate.constructor | internal/accessgate/accessgate.go:126-168 | positive lifetimes, the normalized policy, empty tables |
| AccessGate.Gate.CleanupExpiredLocked | internal/accessgate/accessgate.go:608-634 | locks expired channels, drops expired resume tokens and stale attempts, and nothing else |
| AccessGate.Gate.RegisterChannelWithOptions | internal/accessgate/accessgate.go:212-249 | a registration inherits scope and deadline from one live local session with its id, or stays locked |
| AccessGate.Gate.UnregisterChannel | internal/accessgate/accessgate.go:251-265 | removes the channel |
| AccessGate.Gate.ExpiryTimerFires | internal/accessgate/delegation.go:89-108 | locks the channel only if its deadline is still the one the timer was armed for |
| AccessGate.Gate.ScheduleChannelExpiryLocked | internal/accessgate/delegation.go:89-108 | arms the timer for the deadline, never for a trusted channel |
| AccessGate.Gate.IssueChannel | internal/accessgate/accessgate.go:297-335 | unlocks under a new access session, with a resume token where the channel may have one |
| AccessGate.Gate.IssueLocalSessionForScope | internal/accessgate/accessgate.go:345-384 | a local session and a resume token under one new access session and one lineage deadline |
| AccessGate.Gate.MintLocalSessionFromResumeTokenForScope | internal/accessgate/accessgate.go:390-424 | a local session within the token's access session, scope and deadline; stale failure counters go with the sweep |
| AccessGate.Gate.ResolveLocalSessionForScope | internal/accessgate/accessgate.go:445-462 | resolves a session of this scope up to its expiry, after the sweep: exactly as `Usage.SessionResolvesExactly` says over runs |
| AccessGate.Gate.ResumeChannel | internal/accessgate/accessgate.go:576-606 | unlocks with the token's deadline and access session if binding and scope match; stale failure counters go with the sweep |
| AccessGate.Gate.DelegateCodeSpace | internal/accessgate/delegation.go:19-55 | a pending delegation with the parent's deadline, bounded in number; stale failure counters go with the sweep |
| AccessGate.Gate.ConsumeCodeSpaceLocked | internal/accessgate/delegation.go:57-87 | redeems once; a repeat on the same channel returns the same result; stale failure counters go with the sweep |
| AccessGate.Gate.RevokeAccessSessionLocked | internal/accessgate/accessgate.go:677-701 | removes or locks exactly what carries the id |
| AccessGate.Gate.TakeLocalSession | internal/accessgate/accessgate.go:464-480 | revokes the access session of the local session and returns it |
| AccessGate.Gate.TakeAccessSessionByResumeToken | internal/accessgate/accessgate.go:484-502 | revokes the access session of a token not yet at its deadline and returns it; stale failure counters go with the sweep |
| AccessGate.Gate.TakeExpiredLocalSessions | internal/accessgate/accessgate.go:504-538 | drops expired sessions and the tokens of access sessions that have none left |
| AccessGate.Gate.RevokeResumeToken | internal/accessgate/accessgate.go:544-555 | removes the token |
| AccessGate.Gate.RevokeEntryScopes | internal/accessgate/scope.go:16-45 | revokes every access session found in the scope or its family |
| AccessGate.Gate.RevokeOrdinaryLocked | internal/accessgate/management.go:282-300 | empties the ordinary tables, locks untrusted channels and queues every local session |
| AccessGate.Gate.VerifyPasswordForSubject | internal/accessgate/accessgate.go:753-799 | refuses while cooling down, forgets on success, records a failure with its cooldown |
| Authentication.Store.Save | internal/accessgate/store.go:321-339 | stores only at the generation held, and moves the generation only when told so |
| Authentication.Authenticator.constructor | internal/accessgate/store.go:341-363 | opens with the stored state, enabled by a password or pending recovery |
| Authentication.Authenticator.PersistLocked | internal/accessgate/authentication.go:224-233 | memory follows only a reported save |
| Authentication.Authenticator.VerifyFactorLocked | internal/accessgate/authentication.go:235-290 | spends a factor or records a miss, through one save |
| Authentication.Authenticator.Manage | internal/accessgate/management.go:66-280 | every action of the management switch, as `Management` states them one by one, with revocation exactly after a stored commit or recovery |
| Authentication.Authenticator.Begin | internal/accessgate/management.go:107-196 | guards, re-authentication and the pending operation |
| Authentication.Authenticator.AddOperation | internal/accessgate/management.go:127-196 | the pending operation with its material and digested recovery codes |
| Authentication.Authenticator.VerifyOperation | internal/accessgate/management.go:208-233 | verifies the new authenticator by the code its secret shows, or records a miss, as `Management.VerifyExactly` says |
| Authentication.Authenticator.CommitOperation | internal/accessgate/management.go:234-276 | stores the new policy and, if that was reported, applies and revokes |
| Authentication.Authenticator.Recover | internal/accessgate/management.go:89-100 | marks recovery pending at a new revision, enables and revokes |
| Authentication.Authenticator.AuthenticateLocked | internal/accessgate/authentication.go:139-198 | challenge purge, factor answers with five attempts, password and new challenge, as `SignIn.AnswerProceedsExactly` and `SignIn.PasswordProceedsExactly` say; the tables are swept by a password check and else untouched |
| Authentication.Authenticator.AuthenticateLocalForScope | internal/accessgate/authentication.go:106-137 | grants once per challenge what the tables issue, and repeats a grant only while it resolves in them under this scope |
| Authentication.Authenticator.AuthenticateChannel | internal/accessgate/authentication.go:57-98 | delegation, resume token or sign-in; issues what the tables issue and repeats an unlock only while the channel is open in them |
| Migration.StateDir.OpenAuthStore | internal/accessgate/store.go:138-300 | the writes of an open, one after another, and its result |
| Migration.StateDir.OpenPersistent | internal/accessgate/store.go:341-363 | seeds a missing authority from the legacy verifier |
| Migration.StateDir.ReadPasswordHash | internal/accessgate/credential.go:105-128 | selects the legacy file or the committed authority, and writes nothing |
| Migration.StateDir.WritePasswordHash | internal/accessgate/credential.go:52-102 | the writes of a verifier change on either side of the migration |

## Left out

- HTTP and RPC servers, the reverse proxy, audit logging, QR images and error texts: input and output around the modelled sections.
- SQLite, AES-GCM sealing, bcrypt and TOTP internals, file modes and symbolic links: library or operating-system behaviour, abstracted as atomic cells, a seal bound to its key, and function values.
- Cancel callbacks, contexts and timers of channels and sessions: a timer is a step that may happen at any time with the deadline it was armed for.
- `Status`, `CanResumeMeta`, `SecurityStatus` and other read-only queries of the gate: they add only easy members.
- The order of attempt steps with equal thresholds, which Go's `sort.Slice` leaves open: the model keeps their order.
- Revision and generation counters of the gate are unbounded: wrap-around after 2^63 changes is not modelled.
- Lengths of request fields are counted in characters, those of archive names in bytes.
- Recovery codes are modelled without the dashes they are shown with.
- The database's own crash recovery after the first commit: an update is one write; only the unfinished first transaction is modelled.
- Aliasing between a challenge and the pointer handed to its caller: the model updates the challenge in its map.
- `NormalizeMeans`: a path of bytes, so Python's behaviour on names with surrogate escapes is not modelled.
- `TarArchives.ArchiveRoundTrip`: printed padding is zero; the parser does not check it.
- `Cpio.ArchiveRoundTrip`: padding between members is not checked for zero by the parser, so accepted streams are not claimed to be canonical.
- Writing tar archives with Python's `tarfile`, a library: `TarArchives` prints headers by the format, not by that code.
- The required file names of the desktop payload are a parameter, `Layout`, with their permissions.
- Extraction of tar members to disk, atomic renames and directory publication: operating-system calls.
- `ReceiptsAreTruthful`: the polling loop and its timeout are not modelled; a drain is a step that may be tried at any time.
- The control-channel loop, recovery requests to the cloud and delivery of receipts: behaviour owned by code outside the modelled files.
- The network probe of a route preflight is a parameter, as are the fingerprint and its validity check.
- `EightCodesPerCommit`: one memory whose saves are reported; `OneTime.EightAtMost` states it for the whole authority.
- That a reset loses no file rests on renames being atomic: a file is in the root or in the archive.
- `RoundsAreSound`: `actual_tree`, `hash_path` and `environment` are readings that may change at every step; their own computation is not modelled, and neither is the lock file.
- Checks of the state root and the archive directory before a reset: they refuse without changing anything.
