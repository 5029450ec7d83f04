# A verified model of the zkID link verifier

The server takes a pair of zero-knowledge proofs from a citizen-certificate holder, lets a Rust
library verify them, compares their public signals with three trust anchors (the revocation
root, the issuing CA's RSA modulus, the application id), and then redeems the one-time
challenge bound into the proof, recording the holder's nullifier. This project models that path
from the FFI's reply to the committed row, together with the caches and the key files it relies
on, and proves what the design promises of it.

Eight theorems carry the whole model:

* `Provenance.EndToEnd`: in every reachable state of the whole server, with any number of
  requests, issues, refreshes and wipes interleaved step by step and any database call failing,
  every verification row goes back to a request whose two proofs the FFI linked; whose root
  equalled its issuer's cached root at the moment of the check; whose limbs recompose to the
  cached CA modulus, a record that passed validation; whose app-id is the packing of `APP_ID`;
  and whose challenge was stored by an earlier step of the same epoch and was unexpired when
  the request's own transaction checked it.
* `Safety.ExactlyOnceRedemption`: consumed challenges, rows and nullifiers correspond one to
  one, their number is the number of transactions committed since the last wipe, and no two
  commits of an epoch share a challenge or a nullifier, as texts and as integers.
* `Honest.AcceptedIff`: the other direction. A request left alone is accepted exactly if the
  FFI linked it, its public values agree with the cached anchors and the app-id as integers,
  its challenge is known, unexpired and unused, and its nullifier is new.
* `EarlyCheck.EarlyCheckChangesNoRecord`: the service's early look at the challenge is only a
  shortcut, although it judges a row read earlier by a clock read later. A combination of
  tables, issues and commits is reachable with it if and only if it is reachable without it.
* `EarlyCheck.AnswersCarryOver` and `Witness.OvertakenNeverCarriesOver`: answers carry over too,
  except exactly to a request whose challenge a wipe took away, between its look and its clock
  reading, before it had expired. (Exactly, for challenges issued once; the random values are
  254 bits wide.)
* `Refusals.EveryRefusalExplained` and `Refusals.EveryRejectionJustified`: every refusal by
  the store and every mismatch has its cause. A refused request's own step saw, in the history of that epoch,
  no issue of its challenge, an expired one, an earlier commit of the same challenge, or one of
  the same nullifier; a request not verified had, as integers, the first mismatch it was told.
* `Alone.AloneAsDecided`: the step-by-step machine and the service agree. A request left alone
  can always finish, and whatever run of its own steps finishes it, its answer and the tables
  are the decision that `Service.VerifyAndRecord` is proved against.

## How it is built

| file | models |
|---|---|
| `Numerals.dfy`, `GoText.dfy`, `Clock.dfy` | positional numerals; the Go string, `big.Int` and hex routines; `field_to_hex`; whole seconds |
| `SmtRoot.dfy`, `Limbs.dfy`, `PublicInputs.dfy` | the codecs the trust checks compare through |
| `Store.dfy` | the two tables, their constraints, and the store class over them |
| `SmtProvider.dfy`, `IssuerCert.dfy` | the two trust-anchor caches, as classes and as concurrent machines |
| `LinkVerify.dfy` | the verifier and the service, as classes proved against a decision function |
| `System.dfy`, `Safety.dfy`, `Provenance.dfy`, `EarlyCheck.dfy`, `Alone.dfy`, `Refusals.dfy`, `Honest.dfy`, `Anchors.dfy`, `Witness.dfy` | the whole server as one machine, its invariants, where each fact came from, its caches as the providers' own runs, the early-check equivalence, the agreement with the service, why requests are refused and which are accepted, and runs that exist |
| `KeyManager.dfy` | key installation by one process (a class over a file system) and by many |
| `Ffi.dfy` | OS threads, the Rust library's thread-local cells and the semaphore |

Every lock section of the caches and every SQL statement is one function. The classes refine these
functions method by method, and the machines interleave the same functions, so a property of a
machine is a property of the code the classes describe; and a call that nothing interrupts is proved
to do in the machine what the method does (`AloneAsFetched` in both providers). The key installer's
class works on whole calls and its machine on single system calls; `KeyManager.LoneProcessEnsures`
and `KeyManager.LoneProcessDecides` connect them. What a machine's run comes to is stated over its
schedule, the sequence of steps with the answers they carry, and not only over what it logs. Times are integers in nanoseconds. Randomness,
clock readings, fetched bytes and every failure are parameters; in the store, `faults` names the
calls that fail. The clock reading that sets an issue's expiry may be any time before the insert. SHA-256, X.509 parsing, signature checking and the wording of certificate errors are fields of a `World`
about which nothing is assumed; `AnchorsNeverDrift` alone assumes that no other bytes hash to
the embedded certificate's fingerprint. Refresh steps may carry any clock reading, so their
results do not depend on one clock.

The server machine starts from empty tables and the embedded certificates, and its clock never
goes back. `SetMaxOpenConns(1)` is the connection that a transaction holds from begin to commit
or rollback; issue, lookup and wipe wait for it, and a call may also fail while it waits.

## What turned out not to hold unconditionally

* `normHex` is not a comparison of integers for hex of more than 64 digits:
  `Limbs.NormHexLengthMatters` gives the input, `Limbs.NormHexDecides` the exact condition.
* Too few limbs lose the modulus: `Limbs.TooNarrow` gives another number with the same limbs
  whenever the modulus does not fit, `Limbs.WideEnough` covers every width that fits.
* `NormalizeDecimal` keeps unprefixed text, so a decimal with a leading zero is not the store's
  key: `PublicInputs.UnprefixedIsKeptVerbatim` says exactly which numerals are.
* `writeBoundedAndHash` cuts a stream short when the probe read returns no byte and no error:
  the contract of `KeyManager.FileSystem.WriteBoundedAndHash` gives the exact condition.
* An early rejection is the transaction's own answer unless a wipe takes the challenge, still
  unexpired, between the look and the clock reading: `EarlyCheck.AnswersCarryOver` for every run,
  `Witness.OvertakenNeverCarriesOver` for the other direction, and `Witness.OvertakenAnswerIsNew`
  with such a run for every server that starts.
* Without the OS-thread lock a request can return another request's signals:
  `Ffi.WithoutLockPairingFails`.

Where comments or documentation and code differ, the model follows the code:

* the comment on `Service.VerifyAndRecord` (linkverify/service.go:32-33) says the early
  rejection skips the FFI call, but it comes after that call;
* `PublicSignals` (verifier/verifier.go:22-23) says little-endian hex; `field_to_hex` prints
  big-endian;
* README.md:142 lists an already consumed challenge under "not found"; the store reports it as
  its own error.

## Model

| member | source | states |
|---|---|---|
| Provenance.EndToEnd | linkverify/verifier.go:67-120 | every row of every reachable state has its own commit in the current epoch, by a request the FFI linked, that matched the root and CA record cached when it looked and the app-id, and whose challenge an earlier step of that epoch had stored with an expiry not past at the in-transaction check; its recorded type is link_rs4096 iff the chain has 36 signals and link_rs2048 iff it has 19 |
| Provenance.CommitJustified | linkverify/service.go:34-91 | the same for every commit ever made, also those wiped since |
| Provenance.RequestJustified | linkverify/verifier.go:67-120 | a request that recorded had its FFI verdict, cached root, cached CA record and app-id agree with its signals as integers, and stored exactly its own nullifier and challenge |
| Provenance.SelectTraced | store/sqlite.go:131-149 | the row a select finds unexpired was stored by an earlier successful issue of the same epoch, with that expiry |
| Provenance.EverythingTraced | linkverify/verifier.go:150-215 | whatever a request believes about a root, a record or its FFI reply was read by its own step of the run, from the state at that step; every check and commit rests on an earlier issue |
| Safety.EveryRun | store/sqlite.go:124-180 | in every reachable state the anchors are genuine, each request holds exactly what its passed checks established, an open transaction's copy is the tables plus its own statements, and the tables agree with the history |
| Safety.ExactlyOnceRedemption | store/sqlite.go:124-207 | consumed challenges, rows and nullifiers are in bijection, as many as commits since the last wipe; no two commits of an epoch share a challenge or a nullifier; each commit has its own request |
| Safety.RedeemedStaysRefused | store/sqlite.go:147-152 | in every reachable state, a challenge redeemed in the current epoch is refused, for any nullifier and time, as consumed while it lives and then as expired |
| Safety.ExactlyOnceOnIntegers | store/sqlite.go:19-32 | no two commits of an epoch were signed with the same nullifier integer or the same challenge integer |
| Safety.DuplicateIsReuse | store/sqlite.go:165-168 | a nullifier is refused as a duplicate iff a commit of this epoch has the very same integer |
| Safety.RowsCountCommits | store/sqlite.go:182-207 | the number of rows is the number of successful commits since the last successful wipe, counted on the schedule alone |
| Safety.UnrecordedStep | store/sqlite.go:125-179 | no step but a successful commit, issue or wipe changes tables or histories: a transaction stopped anywhere leaves no trace |
| Safety.CommitIsNew | store/sqlite.go:131-169 | what passes the in-transaction checks repeats no challenge and no nullifier of the epoch |
| Safety.MovesTxKept | store/sqlite.go:51 | only the request holding the single connection is inside a transaction, and its view is the tables as they are |
| EarlyCheck.EarlyCheckChangesNoRecord | linkverify/service.go:58-67 | tables, issues and commits are reachable with the early check if and only if without it |
| EarlyCheck.AnswersCarryOver | linkverify/service.go:58-67 | every run with the early check has a run without it to the same tables, histories and clock, in which every request is told the same, except that one turned away over a challenge wiped while unexpired is not answered |
| EarlyCheck.ReachedWithout | linkverify/service.go:58-67 | that run exists with no transaction open, and beside an open transaction also one holding the same transaction; and for every set of requests whose looked-up challenge expired before a wipe, one in which just these are already answered |
| EarlyCheck.LookedInEveryRun | linkverify/service.go:58-65 | a challenge looked up in the current epoch is still there with the expiry that was read, whatever came between |
| Witness.OvertakenAnswerIsNew | linkverify/service.go:58-67 | on every server that starts there is a run with the early check whose expired answer, on those tables, no run without it gives |
| Witness.OvertakenNeverCarriesOver | linkverify/service.go:58-67 | no run without the early check with the same issues and wipes tells an overtaken request the same, when its challenge was issued once |
| Witness.ExpiredInEveryRun | store/sqlite.go:147-149 | an expired answer of a transaction rests on an issue of the request's own challenge that expired in its epoch, and after a wipe only younger rows follow |
| Witness.EveryServerCanRecord | linkverify/service.go:34-91 | every server that starts with a root source has a run that records a verification |
| Witness.SomeServerStarts | issuercert/embed.go:46-64 | there is a world in which the embedded certificates load, so these runs exist |
| Refusals.EveryRefusalExplained | store/sqlite.go:131-169 | every refusal was given by the request's own lookup, check, select or insert, in a state whose history says so: no issue of its challenge in the epoch, an expired one, an earlier commit of that challenge, an earlier commit of that nullifier integer |
| Refusals.EveryRejectionJustified | linkverify/verifier.go:67-120 | a request told it is not verified was not linked by the FFI, or its reason is the first of the three comparisons that fails, as integers, against the root and record cached at its own reads and the app-id |
| Refusals.LedgerInEveryRun | store/sqlite.go:80-122 | what was issued in this epoch is in the table with its expiry, every pending look rests on an issue, and every overtaken one on an issue lost unexpired |
| Honest.AcceptedIff | linkverify/service.go:34-91 | the decision is acceptance iff the proofs are linked, the public values agree with anchors and app-id as integers, and the store refuses neither challenge nor nullifier |
| Honest.ChecksDecide | linkverify/verifier.go:85-120 | for parsed signals the three checks pass together iff the public values agree with anchors and app-id |
| EarlyCheck.ReachedWith | linkverify/service.go:58-67 | every run without it is followed by one with it, requests in step or still waiting where the transaction was lost from the start |
| Alone.AloneAsDecided | linkverify/service.go:34-91 | from any reachable state with the connection free, a newly arrived request left alone can finish, and every way it finishes gives the service's answer and the service's tables |
| Alone.StepFate | linkverify/service.go:39-76 | each faultless step of an undisturbed request leaves what it is coming to unchanged |
| LinkVerify.Service.VerifyAndRecord | linkverify/service.go:34-77 | what one request does to the tables and answers is the decision made from verdict, key, early check and transaction in that order; with any faults nothing but the decided redemption is written |
| LinkVerify.Service.Redeem | linkverify/service.go:58-76 | from the lookup on: persisted means both checks passed and exactly one redemption was added; the challenge mismatch branch cannot be taken |
| LinkVerify.Service.Finalize | linkverify/service.go:79-91 | a row is recorded under `StoreKey` of the proof type, or the store's error is returned and nothing changes |
| LinkVerify.EarlyCheckSound | linkverify/service.go:58-67 | an early rejection is the error the transaction gives on the same tables at any later time |
| LinkVerify.EarlyCheckRedundant | linkverify/service.go:65-67 | the decision is that of the transaction alone |
| LinkVerify.Verifier.Verify | linkverify/verifier.go:67-83 | result and error are the verdict on the FFI reply, the parsed signals and the caches |
| LinkVerify.Verifier.RunChecks | linkverify/verifier.go:85-120 | all enabled checks are evaluated, the first mismatch gives the reason, an unavailable anchor is an error |
| LinkVerify.Verifier.MatchSmtRoot | linkverify/verifier.go:150-183 | malformed root first, missing anchor next, then byte equality with the issuer's cached root, reported with both texts, source and update time |
| LinkVerify.Verifier.MatchIssuerModulus | linkverify/verifier.go:185-215 | missing record, then limb count, then limb-by-limb agreement, reported with the record's fingerprint, source and update time |
| LinkVerify.VerifiedMeans | linkverify/verifier.go:67-120 | verified if and only if the FFI linked and no enabled check mismatched; each enabled check then matched; the app-id outcome shows the configured and the parsed id |
| LinkVerify.ReasonTells | linkverify/errors.go:10-16 | each reason text names its own check, and only the first that missed |
| LinkVerify.RootOutcomeMeans | linkverify/verifier.go:150-169 | the expected text is the cached root's, the observed text the signal's, and they match iff they are the same; source and time are the cache's |
| LinkVerify.ModulusOutcomeMeans | linkverify/verifier.go:185-202 | the fingerprint is the hash of the record's own bytes, the source is the record's, and match means limb-by-limb agreement |
| LinkVerify.CheckErrors | linkverify/verifier.go:150-193 | each check errs exactly for its own causes: unreadable signal before missing root; missing record before a wrong limb count |
| LinkVerify.VerdictErrors | linkverify/verifier.go:67-103 | a verdict is an error exactly for a failed FFI call, unparsable signals or an erring enabled check, the first one first |
| LinkVerify.RootCheckDecides | linkverify/verifier.go:150-164 | on printed field elements the root check never errs and holds iff the signal's integer is the cached root's |
| LinkVerify.ModulusCheckDecides | linkverify/verifier.go:185-194 | the limb count always agrees and the check holds iff the limbs are proper and sum to the CA modulus |
| LinkVerify.AppCheckDecides | linkverify/verifier.go:217-218 | the app-id check holds iff the signal's integer is the little-endian packing of `APP_ID` |
| LinkVerify.ChallengeCheckMatches | linkverify/verifier.go:125-137 | the check compares any expected text with the canonical decimal of the signal; against the key derived from that signal it always matches |
| LinkVerify.SignalsMeaning | linkverify/verifier.go:76-83 | which field element ends up in which parsed field, for both proof types |
| Store.SQLiteStore.VerifyAndRecord | store/sqlite.go:124-180 | all or nothing under any faults; errors in the order not found, expired, consumed, duplicate; success is exactly one row, with the default type for an empty one, and one challenge consumed at the second of the update |
| Store.SQLiteStore.CreateChallenge | store/sqlite.go:80-102 | the key is the seed modulo 2^254 in decimal, stored with whole-second stamp and expiry; a clash, a failed random read or a failed insert changes nothing |
| Store.SQLiteStore.GetChallenge | store/sqlite.go:104-122 | absent key is no error; a present one comes with its stored expiry |
| Store.SQLiteStore.CleanDB | store/sqlite.go:182-207 | both tables emptied or neither, the counts right, and the foreign key never in the way |
| Store.StatementsCompose | store/sqlite.go:161-177 | insert and update compose to the redemption; after the three checks an insert can only fail on the nullifier |
| Store.RedeemKeepsConsistent | store/sqlite.go:15-33 | a redemption keeps rows and consumed challenges one to one and consumes exactly one more |
| Store.ConsistentCounts | store/sqlite.go:15-33 | consumed challenges are the rows' challenges, and rows and nullifiers are equally many |
| Store.DuplicateLeavesRedeemable | store/sqlite.go:165-168 | after a duplicate nullifier the same challenge redeems with an unused one exactly until it expires |
| Store.RedeemedOnce | store/sqlite.go:147-152 | on the tables right after a redemption its challenge is refused at any time and for any nullifier, as consumed or as expired |
| Store.MaskedSeed | store/sqlite.go:85-90 | clearing the top two bits is reduction modulo 2^254 |
| Store.FourSeedsPerValue | store/sqlite.go:81-90 | each 254-bit value comes from exactly four seeds, one per setting of the cleared bits |
| Store.IssuedIsField | store/sqlite.go:85-90 | every issued value fits the 32-byte signal |
| Store.StoredExpiryIsEarlier | store/sqlite.go:91-101 | the stored expiry is never later than the announced one and less than a second earlier |
| PublicInputs.ChallengeKey | verifier/public_inputs.go:75-87 | a printed field element and its decimal both normalise to the store's key |
| PublicInputs.KeysDistinct | verifier/public_inputs.go:75-87 | different values never share a key |
| PublicInputs.UnprefixedIsKeptVerbatim | verifier/public_inputs.go:75-81 | an unprefixed numeral is unchanged, hence a key iff it has no superfluous leading zero |
| PublicInputs.PackAppIDLE | verifier/public_inputs.go:93-102 | the reversing loop yields the decimal of sum b_i * 256^i, or the length error |
| PublicInputs.UnpackAppID | verifier/public_inputs.go:106-132 | the loops compute the specification that `UnpackDecides` and the round trips are about |
| PublicInputs.LittleEndian | verifier/public_inputs.go:124-130 | byte i is the i-th lowest, the rest is zero |
| PublicInputs.UnpackDecides | verifier/public_inputs.go:106-132 | exactly integers in [0, 256^31) unpack, each to the bytes whose little-endian value it is; no integer, a negative and a too large one each get their own error |
| PublicInputs.AppIDRoundTrip | verifier/public_inputs.go:89-132 | unpacking undoes packing for all 31-byte ids, zero bytes at either end included |
| PublicInputs.PackAfterUnpack | verifier/public_inputs.go:89-132 | packing undoes unpacking up to the canonical decimal |
| PublicInputs.HexAndDecimalAgree | verifier/public_inputs.go:107-113 | 0x, 0X and decimal numerals of one integer unpack alike |
| PublicInputs.ScansAs | verifier/public_inputs.go:107-116 | white space around a packed app-id is ignored; hex follows either prefix, decimal otherwise |
| PublicInputs.NormalizesTo | verifier/public_inputs.go:77-87 | prefixed text becomes the decimal of its integer or is refused; other text only loses surrounding white space |
| PublicInputs.ParsesIff | verifier/public_inputs.go:18-47 | signals parse iff there are 19 or 36 and 4 of them and the packed app-id is in [0, 256^31) |
| PublicInputs.AppIDCheckDecides | verifier/public_inputs.go:106-132 | a printed field element unpacks to an id iff it is the id's packing |
| PublicInputs.LayoutIsComplete | verifier/public_inputs.go:144-202 | parsing keeps every cert-chain signal in order and the user-sig signals but the first |
| Limbs.ModulusToLimbs | issuercert/limbs.go:15-27 | shift, mask and fill print the base-2^121 digits of n |
| Limbs.LimbsEqual | issuercert/limbs.go:29-38 | true iff lengths agree and every pair normalises alike |
| Limbs.LimbsRecompose | issuercert/limbs.go:15-27 | k limbs sum to n modulo 2^(121k) |
| Limbs.MaskedLimb | issuercert/limbs.go:20-23 | each shift-and-mask result is the digit and below 2^121, so the 32-byte fill never overflows |
| Limbs.LimbComparisonDecides | issuercert/limbs.go:15-50 | for any modulus and any k field elements the textual comparison holds iff each element is below 2^121 and they sum to the modulus modulo 2^(121k) |
| Limbs.WideEnough | issuercert/limbs.go:9-27 | for a modulus of at most 121k bits the comparison decides the modulus itself |
| Limbs.TooNarrow | issuercert/limbs.go:15-27 | a wider modulus shares its limbs with a smaller number |
| Limbs.NormHexDecides | issuercert/limbs.go:41-50 | hex strings normalise alike iff they denote one integer in one padded length |
| Limbs.NormHexLengthMatters | issuercert/limbs.go:46-48 | a concrete pair of equal integers that normalise differently |
| Limbs.RootHexIsNormHex | smtroot/smtroot.go:54-81 | whenever a root parses, its `Hex` is 0x and the input's `normHex` |
| SmtRoot.ParseRootDecides | smtroot/smtroot.go:54-77 | accepted are exactly 1 to 64 hex digits, each as its integer; empty, too long and other text each get their own error |
| SmtRoot.RootEqualityIsIntegerEquality | smtroot/smtroot.go:54-85 | two accepted strings give one root iff they denote one integer |
| SmtRoot.HexRoundTrip | smtroot/smtroot.go:54-81 | parsing undoes printing for every 32-byte root |
| SmtRoot.ParseFieldRoot | rust/src/lib.rs:15-27 | a printed field element parses to the root of its integer |
| GoText.FieldToHexText | rust/src/lib.rs:15-27 | printing reversed little-endian bytes gives 0x and exactly 64 lower-case digits of the integer |
| GoText.ScanIff | verifier/public_inputs.go:82-116 | exactly the numerals scan, bare or behind one sign, each as the integer it denotes |
| GoText.DecimalScans | verifier/public_inputs.go:86 | every integer printed in decimal scans back |
| GoText.BodyOf | issuercert/limbs.go:41-44 | trimming takes the white space, then one 0x, then one 0X, and nothing else |
| GoText.FieldToHexInjective | rust/src/lib.rs:15-27 | two field elements print alike iff they are equal |
| SmtProvider.Provider.InstallRoots | smtroot/smtroot.go:227-249 | the loop merges the new roots over the old and reports exactly the issuers that are new or differ; a failure keeps roots, source and time |
| SmtProvider.Provider.NoteAttempt | smtroot/smtroot.go:251-266 | one source's count, latency and last error change, nothing else |
| SmtProvider.Provider.FetchNow | smtroot/refresh.go:15-70 | the loop over sources is the fold whose meaning `FetchedMeaning` gives; with no source nothing changes |
| SmtProvider.Provider.ReadMeta | smtroot/smtroot.go:191-199 | source, update time and age in whole seconds of one lock section |
| SmtProvider.FetchedMeaning | smtroot/refresh.go:32-69 | the cache becomes the first successful answer under that source's name; with none the roots stay, the failure is counted and its error is recorded |
| SmtProvider.StopsAtSuccess | smtroot/refresh.go:32-59 | sources after the first success are not asked: their attempts are as before |
| SmtProvider.GatherOnchain | smtroot/onchain.go:69-82 | in any arrival order: every issuer's root, or an error if one failed |
| SmtProvider.ParseReleaseBody | smtroot/github.go:88-102 | succeeds iff every issuer's match is present and parses, with exactly those roots |
| SmtProvider.ScheduleDecides | smtroot/refresh.go:15-70 | for all interleavings, told from the answers and the order of the steps: the roots are one whole snapshot, the last answer whose call went on to install it, under the name and time of its source; failures, last error, attempts and latencies are those of the schedule; no call asks a source before the one ahead failed, nor after one succeeded |
| SmtProvider.AloneAsFetched | smtroot/refresh.go:30-69 | a call of the machine that nothing interrupts ends in the cache and error of `FetchNow` |
| SmtProvider.EveryRun | smtroot/refresh.go:15-70 | the same of every step in lock order: one whole snapshot, true counters, sources in order |
| IssuerCert.AcceptIff | issuercert/chain.go:13-68 | bytes are accepted iff the embedded root is as pinned and readable and may sign certificates (CA, key usage unrestricted or with keyCertSign), the hash is the pin, the certificate parses, is signed and named by that root, is valid now, and has an RSA key of exactly 2048 or 4096 bits |
| IssuerCert.RefusalTruthful | issuercert/chain.go:13-68 | a refusal names a condition that fails, with the values it is about |
| IssuerCert.LoadsIff | issuercert/embed.go:46-64 | start-up succeeds iff both embedded certificates are acceptable |
| IssuerCert.AcceptMeaning | issuercert/chain.go:37-45 | what an accepted record holds: hash, certificate, key, its fetch time within validity, source, and the limbs of its own key |
| IssuerCert.AcceptedModulusDecides | issuercert/chain.go:29-46 | 17 and 34 limbs lose nothing: matching an accepted record is equality with its modulus |
| IssuerCert.BitLenBounds | issuercert/chain.go:30-36 | the bit length brackets the modulus between powers of two |
| IssuerCert.Provider.TrustedWithMeta | issuercert/issuercert.go:142-151 | record, update time and age in whole seconds of one lock section |
| IssuerCert.Provider.InstallCert | issuercert/issuercert.go:195-200 | one record and the update time change |
| IssuerCert.Provider.NoteAttempt | issuercert/issuercert.go:202-222 | counters, last error and last attempt follow the outcome; the records stay |
| IssuerCert.Provider.FetchOne | issuercert/refresh.go:44-94 | on success the issuer has the record of the fetched bytes, from https, as of its validation, the other record is kept and the failures are cleared; on an error the records stay, the failure is counted and its text kept; the attempt is counted either way |
| IssuerCert.EveryRun | issuercert/refresh.go:14-94 | for all bytes and interleavings: both records stay and each passed validation, consecutive failures are the trailing run in lock order, per-source counts are conserved |
| IssuerCert.AnchorsNeverDrift | issuercert/embed.go:46-64 | if no other bytes hash to the embedded certificate's fingerprint, only source and fetch time of a trusted record ever change, and it is valid at its fetch time |
| IssuerCert.ScheduleDecides | issuercert/refresh.go:14-94 | for all interleavings, told from replies, clock readings and the order of the steps: each issuer has the record of the last store, judged by that goroutine's own reply and clock, since that store; attempts, counters and last error in lock order; each refresh returns the joined errors its goroutines reported, under their sources' names |
| IssuerCert.AloneAsFetched | issuercert/refresh.go:44-94 | a goroutine of the machine that nothing interrupts does to the cache what `FetchOne` does |
| IssuerCert.NeverStuck | issuercert/refresh.go:20-41 | a refresh can always start, every goroutine has a next step, and a refresh whose goroutines ended can return |
| Anchors.CachesAreProviders | linkverify/verifier.go:156-187 | the caches requests are compared with are the providers' own runs under the server's refresh steps |
| IssuerCert.FetchNowReports | issuercert/refresh.go:34-41 | a refresh returns an error iff an attempt of one of its own sources was recorded as failed |
| IssuerCert.SendNeverBlocks | issuercert/refresh.go:20-31 | whenever a goroutine has an error to send the channel has room |
| KeyManager.FileSystem.WriteBoundedAndHash | keymanager/keymanager.go:150-169 | for any chunking, with the end reported alone or with the last bytes, and any disk: success iff the stream is whole, within the limit and fits (or the probe stalls), hash and file are of the bytes copied; a longer stream is reported truncated, a full disk as a write error |
| KeyManager.FileSystem.DownloadAndDecompress | keymanager/keymanager.go:93-148 | success installs exactly the acceptable body, hash agreeing; failure leaves every file but possibly the temporary one as it was; without faults success is decided by body, limit, disk and hash |
| KeyManager.FileSystem.EnsureOne | keymanager/keymanager.go:69-91 | without faults it succeeds iff the file is good or the body acceptable; success without a good file installs exactly the body; success leaves content with the pinned hash; a good file that can be read is untouched; failure leaves the old content or none |
| KeyManager.LoneProcessEnsures | keymanager/keymanager.go:69-148 | a process of the machine left alone, stopped by any failures, ends as that contract says |
| KeyManager.LoneProcessDecides | keymanager/keymanager.go:69-148 | a process of the machine that nothing fails keeps a good file, and otherwise installs exactly the bytes it wrote iff their hash agrees |
| KeyManager.LoneProcessInstalls | keymanager/keymanager.go:86-91 | any bytes whose hash agrees get installed by some run, unless a good file is there |
| KeyManager.ComparisonMeans | keymanager/keymanager.go:185-194 | only a pinned key can mismatch, and only by another hash |
| KeyManager.LoneProcessKeepsGood | keymanager/keymanager.go:70-77 | left alone and able to read it, it leaves a good file as it is |
| KeyManager.EveryRun | keymanager/keymanager.go:69-148 | each working process alone owns its temporary file, which holds exactly the bytes it has hashed |
| KeyManager.InstallSafety | keymanager/keymanager.go:69-148 | any number of processes stopped anywhere: a pinned key's file is absent, as at first, or has the pinned hash |
| Ffi.EveryRun | verifier/verifier.go:63-81 | a locked thread's cells stay those of its own call until read, and no two goroutines hold one thread |
| Ffi.PairingAndBound | linkverify/linkverify.go:67-110 | over all schedules a finished request has no answer iff its staging failed, and otherwise the verdict and signals, or the error, of its own one call; the semaphore is the acquisitions not yet released, the requests in flight, at most ten |
| Ffi.AnotherGetsThrough | verifier/verifier.go:63-81 | while fewer than ten are in flight another request can go all the way and gets its own answer |
| Ffi.CallBelongs | rust/src/lib.rs:75-153 | a call's code, verdict, signals or error message are its own whatever the thread's cells held before |
| Ffi.WithoutLockPairingFails | verifier/verifier.go:64-67 | a schedule on unlocked threads where one request reads another's signals |

## Left out

- The proof system itself: what the FFI says about two proofs is arbitrary, except that it compares the first public values, as the Rust code does.
- SHA-256, DER parsing and RSA verification: uninterpreted functions of the `World`.
- HTTP and gRPC handlers, DTOs, status codes, CORS, logging, environment and command line: plumbing around the modelled calls. `APP_ID` is 31 bytes because startup refuses any other length.
- The JSON text between Rust and Go: the signals cross as lists of strings, and unparsable JSON (a nil signals pointer) only as the `None` case of parsing.
- The release-body regular expression: what it captured for each issuer is an input.
- Non-ASCII white space and case folding: `TrimSpace` and `ToLower` are modelled on ASCII.
- The wording of I/O errors: a failed lookup and a failed select are both told as a failed query, and answers are compared by kind.
- Calendar text of stored times: rounded down to whole seconds instead; unreadable stored times cannot occur.
- SQL text, migrations of older databases and AUTOINCREMENT ids.
- A commit whose outcome the database leaves unknown: a failed commit writes nothing here.
- Constant-time comparison: plain equality, no timing.
- LinkVerify.Verifier.MatchSmtRoot: root and meta are read in two lock sections (linkverify/verifier.go:156-160); in the class nothing comes between them, so a trust-source label newer than the root is not modelled.
- Issuer numbers other than the two: the default branches for unknown issuers have no counterpart, because the issuer type has two values.
- SmtProvider.EveryRun: sources answer for all issuers or fail, as the two real ones do (`GatherOnchain`, `ParseReleaseBody`); `setRoots` with a partial map would merge.
- NewStaticProvider, the status payloads and the background tickers: fixed data, read-only views, and one more caller of `FetchNow`.
- IssuerCert.Provider.TrustedWithMeta: the age is an exact division; the source goes through a floating-point number of seconds.
- KeyManager.FileSystem.WriteBoundedAndHash: a read that returns neither bytes nor an error is modelled at the probe only; before it the copy simply reads again.
- KeyManager.FileSystem.EnsureOne: that an installed key stays present is not claimed across processes, since another one may remove the file after judging an older one.
- The limit of ten and thread scheduling are modelled in `Ffi` and not again in `System`, where any number of replies may arrive.
