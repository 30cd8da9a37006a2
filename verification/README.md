# Verified model of the OIDC auth module

A Dafny 4.11 model of the OIDC auth library (`auth-oidc/`): the JWKS cache that any number of requests share, the
compact-JWS parser and the signature decision, the claims policy, and the authorize URL of the browser login. Run
`dafny verify dfyconfig.toml` to check everything.

## What is modelled, and how

**The JWKS cache, twice.** `CachePolicy` holds the decisions the cache takes while it holds its data lock, one
function per acquisition: the snapshot, the outer check, the re-check and claim under the gate, the install, the
fallback. From these are built

- `CacheProtocol`, a transition system of any number of `with_key` calls. One step is one acquisition of the data
  lock, one operation on the fetch gate, one fetch, or one lookup with nothing held. The environment chooses, step by
  step, which call moves, what a fetch answers (a body, a transport error, or a panic of the fetcher) and whether a
  check panics. Every call brings a `now` of its own, so the clock readings seen in lock order are arbitrary. The
  sections that only one call at a time can be in are never assumed to be exclusive: that is proved. The records
  `Past`, `installs` and `claims` are history; no step reads them.
- `KeyCache.JwksCache`, the object with its fields and methods, driven by one caller at a time and proved against
  `WithKeyAt`, a specification in which the `wait` flag no longer appears. The gate may be held when a call arrives,
  because somebody else is fetching; what the data will be when it comes free is then a parameter, `later`.

`ProtocolSolo.AloneIsSequential` and `ProtocolSolo.WaitedIsSequential` connect the two: a call scheduled alone, or
alone from the moment it gets the gate it waited for, does what the object does.

Proofs over the protocol: `ProtocolInvariant` (the inductive invariant), `ProtocolSafety` (ceiling, fetch rate, data,
fresh reads), `ProtocolStampede`, `ProtocolWaiting`, `ProtocolAvailability`, `ProtocolOutcomes` (what each end
of a call means), `ProtocolLiveness`. `ProtocolWitnesses`
holds runs that show what the protocol does allow, and that the conditions of the theorems are exact.

**Tokens.** `Jwt` splits and verifies, with the JSON readers and the two signature verifiers as parameters
(`Library`). `Base64Url` is a library model of section 5 of RFC 4648. `Jwks` has the keys, their decoded material and
the write-once memo (`JwkCell`). `KeyLookup` is the loop over the keys that share a `kid`.

**Claims.** `Claims` starts from a parsed JSON value. Integers are clamped to 64 bits where the code saturates; a
float is a real number, so rounding is judged against the exact value of the claim.

**Login.** `Percent` (UTF-8 and percent-encoding), `Scopes` and `Authorize` (the URL and a reader for it).

**The whole module.** `Oidc.OidcModule` runs a token through all of it; `ConcurrentOidc` states the same soundness for
requests that share the cache.

Instants and durations are whole nanoseconds; a duration is bounded as in Rust, an instant is not. Elapsed time is the
saturating difference. Error texts are replaced by constructors of `Error`, `SplitError` and `Denial`.

## Where the code and its comments disagree

The model follows the code.

- `auth-oidc/src/lib.rs:690` says the end-of-time clock fails the `exp` and `nbf` checks of any realistic token. Only
  `exp` fails: no `nbf` exceeds that reading. A token is accepted then exactly when its `exp` is at most a minute
  before the end of i64 and the rest of it is in order (`Claims.BrokenClockRefuses`; `Claims.BrokenClockAccepts` is
  such a token).
- `auth-oidc/src/lib.rs:217-247` accepts any saturated date. At clock readings within a minute of either end of i64 a
  token can be accepted outside its own dates; `Claims.ClampingMattersOutsideTheBand` shows that this happens there
  and nowhere else.
- `auth-oidc/src/cache.rs:25-31` says a call waits only on a cold cache and only for the one fetch in flight. A call
  whose keys are past the ceiling waits too, and any number of further fetches of others may go by before it gets the
  gate (`ProtocolWitnesses.WaitersMayBePassedOver` has the runs). What it gets then is
  `ProtocolWaiting.HowWaitingEnds`.
- `auth-oidc/src/cache.rs:1183-1187` calls the ceiling error unreachable at the re-check under the gate, because a
  desperate caller has no keys. One whose keys are past the ceiling has, and reaches it, exactly when the interval is
  positive (`ProtocolWitnesses.CeilingErrorUnderGate`).
- `auth-oidc/src/cache.rs:222-225` and `:28-30` promise that a call with usable keys is served from them whatever the
  provider does. That holds when the interval is positive. With interval zero and a TTL below the ceiling, another
  call with an older clock reading may replace the keys by a set stamped with that reading, which is then past the
  ceiling of the first call (`ProtocolWitnesses.UsableKeysAreServedExactlyWhen`).
- `auth-oidc/src/lib.rs:640-642` speaks of the query component of the endpoint, but looks for a `?` anywhere in it.
  The query component of the URL carries the parameters exactly when the endpoint has no `#`
  (`Authorize.QueryComponentCarries`), which is what section 3.1 of RFC 6749 asks of an endpoint.
- The bound on the fetch rate needs a positive interval. With interval zero there is none
  (`ProtocolSolo.ZeroIntervalIsUnbounded`).

## Model

| member | source | states |
|---|---|---|
| ProtocolSafety.CeilingHolds | auth-oidc/src/cache.rs:127-172 | In every run of any number of calls, under any schedule and any clock readings, no lookup runs against a set fetched the ceiling or more before that call's `now`, so each is under a day or under 24 TTLs old, on any return path; every set used was installed by a successful non-empty fetch |
| ProtocolSafety.SuccessIsJustified | auth-oidc/src/cache.rs:155-172 | A call that succeeds found, in a set within its ceiling, a key of its own `kid` that its check accepted |
| ProtocolSafety.FetchRateBound | auth-oidc/src/cache.rs:275-278 | With a positive interval, calls with readings in `[a, b]` cause at most `(b-a)/interval + 1` fetches in total, and successive attempts lie an interval apart, for every trigger and every ending of a fetch |
| ProtocolSafety.FetchesPerCall | auth-oidc/src/cache.rs:115-118 | Under concurrency a call fetches at most once with a positive interval and at most twice without; the first fetch only for a cold, stale or expired cache, the second only after a lookup that matched no key |
| ProtocolSafety.GateIsExclusive | auth-oidc/src/cache.rs:247-260 | At most one call is between taking and releasing the gate; nobody looks keys up or waits while holding it |
| ProtocolSafety.DataIsConsistent | auth-oidc/src/cache.rs:82-89 | In every reachable state: keys exactly when a fetch time, never an empty set, keys only after an attempt, and fetch time not after the attempt anchor when the interval is positive |
| ProtocolSafety.DataChangesOnlyBySuccess | auth-oidc/src/cache.rs:263-321 | A step changes the data only for the gate holder, and keys or fetch time only by installing a fetched non-empty set with the caller's `now`; failures and panics change neither, and keys are never dropped |
| ProtocolSafety.ReadsAreFreshAndMonotone | auth-oidc/src/cache.rs:127-172 | Each set looked up was the cached one in some state since the call began, is no older than the one cached when it began, and the second lookup never goes behind the first |
| ProtocolOutcomes.LookupsUseTheCachedSet | auth-oidc/src/cache.rs:127-176 | Each set looked up, in either round and on every path, is exactly the one cached when the call last held the data lock |
| ProtocolOutcomes.FailuresHaveReasons | auth-oidc/src/cache.rs:121-322 | In every run each error of a call has its reason at one step: the check said so, two sets lack the `kid`, the cached keys were past the ceiling or there were none while the call might not fetch, or its own fetch failed with that error and nothing was left to serve |
| ProtocolOutcomes.UnknownKidMeansTwoMisses | auth-oidc/src/cache.rs:164-182 | A call reports an unknown `kid` only after two lookups, in sets that both lack it |
| ProtocolOutcomes.PanicsHaveReasons | auth-oidc/src/cache.rs:281-284 | A call is unwound only by its own fetch or its own check |
| ProtocolOutcomes.PanicsUnwind | auth-oidc/src/cache.rs:281-284 | A check that panics on a key of the `kid`, and a fetcher that panics, unwind their call, and the gate comes free |
| ProtocolOutcomes.PoisonMeansPanic | auth-oidc/src/cache.rs:249-259 | The gate is poisoned exactly when some call has been unwound out of its fetch |
| ProtocolSafety.AttemptsSpread | auth-oidc/src/cache.rs:327-332 | Any two attempts lie at least their distance in intervals apart |
| ProtocolSafety.SpacedIsSparse | auth-oidc/src/cache.rs:327-332 | Spaced attempts are sparse in every window of clock readings |
| ProtocolInvariant.InitialInv | auth-oidc/src/cache.rs:106-111 | A new cache satisfies the invariant |
| ProtocolInvariant.StepKeepsInv | auth-oidc/src/cache.rs:230-322 | Every step of every call keeps the invariant, whatever the fetch answers, panic included |
| ProtocolInvariant.RunInv | auth-oidc/src/cache.rs:121-322 | The invariant holds in every state of every run |
| ProtocolStampede.ColdStartFetchesOnce | auth-oidc/src/cache.rs:550-582 | From a cold cache, calls less than an interval apart claim at most one fetch in total, for any number and schedule, and no call finishes before it |
| ProtocolStampede.ColdStartSharesOneSet | auth-oidc/src/cache.rs:262-269 | If that fetch succeeds, it installed the only set, and a finished call looked its keys up in that set, and in no other, exactly if the set was fetched within a ceiling of the reading of the call; a call with a later reading has failed with the ceiling error |
| ProtocolWaiting.OnlyTheDesperateWait | auth-oidc/src/cache.rs:231-260 | A call blocks on the gate only if it saw no keys, or keys past the ceiling, both when it began and at its outer check, and holds nothing while it blocks |
| ProtocolOutcomes.OnlyTheServedLoseTheRace | auth-oidc/src/cache.rs:247-260 | A call that goes on without waiting for a held gate, in its first round, found keys to serve when it began or at its outer check |
| ProtocolOutcomes.OnlyThePermittedComeToTheGate | auth-oidc/src/cache.rs:237-245 | A call comes to the gate only if its outer check permitted an attempt, or found nothing to serve in a first round |
| ProtocolWaiting.WaitersTakeTheFetch | auth-oidc/src/cache.rs:262-269 | With a positive interval, if a set within its ceiling has been installed while a call waits, the call ends with a lookup in that set or a later one, without a fetch of its own before it |
| ProtocolWaiting.DesperateUnderGate | auth-oidc/src/cache.rs:262-278 | What a desperate call gets under the gate, each answer exactly when it applies: the newest set, a fetch, the ceiling error, or nothing |
| ProtocolWaiting.HowWaitingEnds | auth-oidc/src/cache.rs:247-322 | In every run, a finished call that waited got the gate once, and the data at that moment decides its end: a first lookup in exactly the keys cached then, with no fetch of its own first; a fetch of its own; or a failure without fetch or lookup, by the ceiling or for want of keys |
| ProtocolWaiting.InstallTimesRise | auth-oidc/src/cache.rs:288-292 | With a positive interval, sets are installed in the order of their fetch times |
| ProtocolAvailability.UsableKeysAreServed | auth-oidc/src/cache.rs:220-225 | In every run, a call that found keys within its ceiling when it began never waits; with a positive interval it has looked keys up when it has finished, unless it fetched itself and the fetcher panicked, whatever the provider and other calls do |
| ProtocolAvailability.PublishedKeysSucceed | auth-oidc/src/cache.rs:28-34 | With a positive interval, in every run, a call that found usable keys, and for which every set installed since has an accepted key, succeeds, short of a panic |
| ProtocolWitnesses.UsableKeysAreServedExactlyWhen | auth-oidc/src/cache.rs:220-225 | The second half holds for exactly the configurations with a positive interval, or with a ceiling equal to the TTL |
| ProtocolWitnesses.WaitersMayBePassedOver | auth-oidc/src/cache.rs:25-31 | For every configuration and every `n` a run in which a call whose keys are past the ceiling waits while `n` further fetches of other calls go by |
| ProtocolWitnesses.CeilingErrorUnderGate | auth-oidc/src/cache.rs:273-275 | Some run gives the ceiling error at the re-check under the gate, iff the interval is positive |
| ProtocolLiveness.StepDoesWork | auth-oidc/src/cache.rs:121-322 | Every step decreases a measure summed over all calls |
| ProtocolLiveness.SchedulesAreFinite | auth-oidc/src/cache.rs:121-322 | No schedule is longer than 17 steps per call, fair or not |
| ProtocolLiveness.NoDeadlock | auth-oidc/src/cache.rs:247-260 | While a call is unfinished some call can move; a call is stuck only behind a gate whose holder can move |
| ProtocolLiveness.MaximalSchedulesFinishEveryCall | auth-oidc/src/cache.rs:121-183 | A schedule that cannot be extended has finished every call |
| ProtocolLiveness.LookupsAreIndependent | auth-oidc/src/cache.rs:20-26 | A lookup can always run, changes nothing shared, and commutes with every step of every other call: checks are never serialised |
| ProtocolLiveness.PoisonIsRecovered | auth-oidc/src/cache.rs:249-259 | A gate poisoned by a panic, for which `try_lock` and `lock` answer with a poison error, lets every call do exactly the steps of a healthy one |
| ProtocolSolo.AloneIsSequential | auth-oidc/src/cache.rs:121-183 | A call scheduled alone returns what the sequential cache returns, leaves its data, claims as many fetches and touches no other call |
| ProtocolSolo.WaitedIsSequential | auth-oidc/src/cache.rs:247-322 | So does a call that has waited, once it gets the gate, from the data as it finds them |
| ProtocolSolo.DriveIsSchedule | auth-oidc/src/cache.rs:121-183 | Driving one call to its end is a schedule of the protocol |
| ProtocolSolo.ZeroIntervalIsUnbounded | auth-oidc/src/cache.rs:327-332 | With interval zero, for every `n` some run has `n` fetches at one clock reading |
| CachePolicy.CeilingCoversTtl | auth-oidc/src/cache.rs:99 | The ceiling is at least the TTL and at least a day, despite saturation |
| CachePolicy.RulesInFigures | auth-oidc/src/cache.rs:327-368 | Ceiling, TTL and interval in figures, over the two times: a day and 24 TTLs, capped by the longest duration; a TTL; an interval |
| KeyCache.JwksCache.constructor | auth-oidc/src/cache.rs:93-113 | A new cache is empty, its gate free |
| KeyCache.JwksCache.TakeSnapshot | auth-oidc/src/cache.rs:207-218 | The cached set, whether it is stale, whether it is past the ceiling |
| KeyCache.JwksCache.CheckOuter | auth-oidc/src/cache.rs:237-245 | The section before the gate decides as the protocol's outer check does |
| KeyCache.JwksCache.CheckUnderGate | auth-oidc/src/cache.rs:263-278 | The section under the gate decides, and claims, as the protocol's does, and changes nothing but the anchor |
| KeyCache.JwksCache.Settle | auth-oidc/src/cache.rs:286-321 | After the fetch the data and the answer are those of the protocol's install or fallback |
| KeyCache.JwksCache.Refresh | auth-oidc/src/cache.rs:230-322 | With the gate free a refresh fetches exactly when the interval permits, whatever `wait` is, with this result, this data and the gate released, panic included; while somebody else fetches it serves what is cached, or, with nothing to serve and `wait` set, waits and then takes keys within the ceiling or refreshes |
| KeyCache.JwksCache.Rotate | auth-oidc/src/cache.rs:164-182 | The rotation half of a call: one refresh, one more lookup |
| KeyCache.JwksCache.WithKey | auth-oidc/src/cache.rs:121-183 | Outcome, new data and number of fetches are exactly those of the specification, gate free or held: while somebody else fetches, a caller with usable keys is answered from them at once, without a fetch or any change, and any other caller goes on from the data it finds when it has waited |
| KeyCache.FetchesExactlyWhen | auth-oidc/src/cache.rs:115-183 | With a positive interval a call fetches once iff the last attempt is an interval ago and the cache is cold, a TTL old, or lacks the `kid`, and otherwise never; a known `kid` whose keys all fail causes no rotation fetch |
| KeyCache.FetchesWithoutInterval | auth-oidc/src/cache.rs:115-183 | With interval zero: one fetch to open iff the cache is cold or a TTL old, one more iff the set it then opens with lacks the `kid` |
| KeyCache.OutageServesUntilTheCeiling | auth-oidc/src/cache.rs:293-321 | While the provider is down the answer is the lookup in the cached keys within the ceiling, and an error past it; the keys stay |
| KeyCache.NothingToServeEnds | auth-oidc/src/cache.rs:293-321 | With nothing to serve, a failed fetch ends the call with that fetch's own error or panic, and a refused one with the ceiling error or the want of keys |
| KeyCache.PanicsExactlyWhen | auth-oidc/src/cache.rs:281-284 | A call is unwound iff its last fetch panicked, gate free or held |
| KeyCache.SuccessComesFrom | auth-oidc/src/cache.rs:121-183 | Success comes from an accepted key of the `kid` in the cached set within the ceiling, or in a set that a fetch this call made brought, or, if it had to wait, in the set it found then, within the ceiling |
| KeyCache.AloneKeepsStamped | auth-oidc/src/cache.rs:288-292 | A call keeps keys and fetch time together |
| KeyLookup.RunTryAll | auth-oidc/src/cache.rs:190-203 | The loop computes the lookup |
| KeyLookup.TryAllInOrder | auth-oidc/src/cache.rs:185-203 | Nothing iff no key of the set matches; the first accepted matching key in document order otherwise; the error of the last matching key of the set if all fail |
| KeyLookup.TryAllSucceeds | auth-oidc/src/cache.rs:185-203 | The lookup succeeds iff some key of the set has the `kid` and is accepted |
| KeyLookup.SuccessIgnoresOrder | auth-oidc/src/cache.rs:185-203 | Whether it succeeds does not depend on the order of the keys |
| KeyLookup.SelectedKeys | auth-oidc/src/jwks.rs:175-179 | A key is selected iff it carries the `kid`, or carries none and the `kid` is empty |
| Jwks.Parse | auth-oidc/src/jwks.rs:154-165 | No empty set is ever a success |
| Jwks.ParseKeepsUsableKeys | auth-oidc/src/jwks.rs:129-165 | A document parses iff it has a usable entry, and then to exactly its usable entries, in document order and as often as they stand there; which of the two errors it gives otherwise |
| Jwks.MatchingMembers | auth-oidc/src/jwks.rs:175-179 | Selection returns exactly the keys that match |
| Jwks.FromJwk | auth-oidc/src/jwks.rs:31-62 | Decoding a key gives its material, the EC point as `0x04`, X, Y |
| Jwks.RsaMaterial | auth-oidc/src/jwks.rs:31-42 | RSA material is exactly the bytes whose texts are modulus and exponent of an RSA key |
| Jwks.EcMaterial | auth-oidc/src/jwks.rs:43-58 | EC material is `0x04`, X, Y for the bytes whose texts are the coordinates, and exists iff both fields are such texts |
| Jwks.UnusableMaterialExactly | auth-oidc/src/jwks.rs:31-70 | Each reason for an unusable key, exactly when it applies |
| Jwks.JwkCell.constructor | auth-oidc/src/jwks.rs:103-107 | A new key has an empty memo |
| Jwks.JwkCell.Material | auth-oidc/src/jwks.rs:113-115 | The memo always agrees with decoding afresh, and is written once |
| Jwt.SplitReadsWhatSignWrites | auth-oidc/src/testkit.rs:142-154 | Splitting what `sign` emits returns its payload, signature and exactly the signing input |
| Jwt.SplitAcceptsOnlyCompactTokens | auth-oidc/src/jwt.rs:56-83 | Every accepted token is its signing input, a dot and its signature, and the signing input is its header, a dot and its payload |
| Jwt.TwoDots | auth-oidc/src/jwt.rs:57-76 | The last dot found from the right is the one before the third segment |
| Jwt.PartsDetermineToken | auth-oidc/src/jwt.rs:56-83 | Signing input and signature determine an accepted token |
| Jwt.SplitErrorsAreExact | auth-oidc/src/jwt.rs:56-83 | Each reason for refusing to split a text, exactly when it applies |
| Jwt.AcceptedExactlyWhenGenuine | auth-oidc/src/jwt.rs:88-172 | A signature is accepted iff no critical extension, no encryption key, and the predicate of the named algorithm holds, on exactly the transmitted signing input, for the bytes whose base64url texts are the fields of a key of the matching type and curve; the mismatch branches are never taken |
| Jwt.SignatureDenialsAreExact | auth-oidc/src/jwt.rs:88-172 | Each reason for refusing a signature, exactly when it applies |
| Jwt.VerifyWithMemo | auth-oidc/src/jwt.rs:88-172 | Verifying with the memo is verifying with freshly decoded material |
| Jwt.LookupWithMemo | auth-oidc/src/cache.rs:190-203 | A lookup over keys with any state of their memos answers as if every key were decoded afresh |
| Base64Url.EncodeDecode | auth-oidc/src/jwt.rs:62-72 | Decoding inverts encoding |
| Base64Url.DecodeEncode | auth-oidc/src/jwt.rs:62-72 | Only canonical texts decode |
| Base64Url.Alphabet | auth-oidc/src/jwt.rs:62-72 | The alphabet of the encoding, in order |
| Base64Url.BigEndian | auth-oidc/src/jwt.rs:62-72 | Four sextets are three bytes read as one number |
| Base64Url.Vectors | auth-oidc/src/jwt.rs:62-72 | The published test vectors |
| Claims.CachedVerdictHolds | auth-oidc/src/lib.rs:323-334 | For the whole of its lifetime a cached verdict is what validating again would give; the lifetime is at most 300 s and, when shorter, ends exactly at `exp` |
| Claims.RecachingNeverOutlivesTheToken | auth-oidc/src/lib.rs:323-334 | No chain of cached and renewed verdicts reaches past `exp`, or past the first validation if later |
| Claims.AcceptanceIsAnInterval | auth-oidc/src/lib.rs:217-264 | The accepting seconds form an interval with one identity, over all of i64 |
| Claims.AcceptanceIsExact | auth-oidc/src/lib.rs:173-336 | Away from the ends of i64 a token is accepted iff everything but its dates is in order, its dates are readable, and `nbf - 60 <= now <= exp + 60` over the unrounded reals |
| Claims.DateDenialsAreExact | auth-oidc/src/lib.rs:217-264 | Each reason that concerns the dates is given exactly when it applies |
| Claims.ClampingMattersOutsideTheBand | auth-oidc/src/lib.rs:217-247 | Clock readings at which no token is accepted outside its unrounded dates are exactly those of the band |
| Claims.BrokenClockRefuses | auth-oidc/src/lib.rs:687-720 | A sane reading is used as it is; with a clock that is unreadable or below the floor a token is accepted iff its exact `exp` is at most a minute before the end of i64, its dates are readable and the rest is in order |
| Claims.BrokenClockAccepts | auth-oidc/src/lib.rs:687-720 | The first `exp` such a clock lets through, shown by a token that is accepted and one a second earlier that is not |
| Claims.MutableClaimsHaveNoSay | auth-oidc/src/lib.rs:287-318 | Only the decisive members of a token decide verdict, identity, roles and lifetime |
| Claims.AcceptedTokens | auth-oidc/src/lib.rs:174-320 | An accepted token has the issuer, an audience list with no untrusted entry unless `azp` names the client, an id made from `oid` if that has text in it and otherwise from `sub`, and the first string of four members as display name |
| Claims.AudienceExactly | auth-oidc/src/lib.rs:192-209 | The audience is in order iff it is the one string, or a list that has it and nothing else unless `azp` names it |
| Claims.OverageExactly | auth-oidc/src/lib.rs:340-349 | The overage marker, over the members of the token |
| Claims.WhiteSpace | auth-oidc/src/lib.rs:354-356 | The characters that count as blank, by number |
| Claims.RolesComeFromTheClaim | auth-oidc/src/lib.rs:283-285 | The roles are exactly the strings of the configured claim, in its order and as often as they stand there |
| Claims.PolicyDenialsAreExact | auth-oidc/src/lib.rs:173-320 | Each reason that does not concern the dates is given exactly when it applies, at every second of i64; a groups overage is refused exactly when the roles are read from `groups`, and a token is without a subject exactly when neither `oid` nor `sub` has a character that is not white space |
| Percent.RunPct | auth-oidc/src/lib.rs:613-624 | The loop computes the encoding |
| Percent.PctRoundTrip | auth-oidc/src/lib.rs:613-624 | Percent-decoding gives back every text |
| Percent.PctInjective | auth-oidc/src/lib.rs:613-624 | No two texts are encoded alike |
| Percent.PctHasNoDelimiters | auth-oidc/src/lib.rs:610-624 | An encoded text contains only unreserved characters and `%` |
| Percent.UnreservedSet | auth-oidc/src/lib.rs:617-619 | The bytes that stand for themselves, by their characters |
| Percent.EscapedByte | auth-oidc/src/lib.rs:620 | Any other byte is `%` and two upper-case hexadecimal digits |
| Percent.Utf8Bytes | auth-oidc/src/lib.rs:616 | The bytes of a character are those of RFC 3629, in figures |
| Scopes.ScopeValue | auth-oidc/src/lib.rs:600-608 | The loop computes the folded list, joined by spaces |
| Scopes.FoldedScopes | auth-oidc/src/lib.rs:599-608 | `openid` first, every scope once in order of first occurrence, nothing else, and folding again changes nothing |
| Scopes.FoldGrows | auth-oidc/src/lib.rs:550-553 | The scopes of a request go behind the configured ones, and only those that are new do |
| Scopes.ScopeValueSplits | auth-oidc/src/lib.rs:600-608 | The value splits back into that list iff no scope contains a space |
| Authorize.BuildAuthorizeUrl | auth-oidc/src/lib.rs:630-655 | Building the URL piece by piece gives the specified text |
| Authorize.AuthorizeUrlRoundTrip | auth-oidc/src/lib.rs:626-655 | The URL is the endpoint, one separator and a query that reads back as exactly the intended parameters; an endpoint query is retained in front; a fragment mark comes from the endpoint only |
| Authorize.QueryComponentCarries | auth-oidc/src/lib.rs:626-655 | The query component of the URL, up to a fragment, carries those parameters behind the ones of the endpoint iff the endpoint has no fragment |
| Authorize.TemplateIsRendered | auth-oidc/src/lib.rs:643-653 | The text written is the rendering of the intended parameter list |
| Authorize.QueryReads | auth-oidc/src/lib.rs:643-653 | Any rendered parameter list reads back as it was |
| Oidc.OidcModule.constructor | auth-oidc/src/lib.rs:414-431 | The two verifiers differ in the audience only, which is the client id for logins |
| Oidc.OidcModule.VerifyWith | auth-oidc/src/lib.rs:479-519 | The verdict is the specified one, whether or not another request is fetching; passing a token on leaves the cache untouched |
| Oidc.OidcModule.Authenticate | auth-oidc/src/lib.rs:527-533 | No credential is passed on; a token gets the bearer verdict |
| Oidc.OidcModule.IdentityFromTokenResponse | auth-oidc/src/lib.rs:444-469 | Identified iff the status is 2xx, the body has a string `id_token`, and the login verifier identifies that very token; nothing is ever passed on |
| Oidc.OidcModule.StartLogin | auth-oidc/src/lib.rs:546-562 | Rejected iff there is no endpoint; otherwise the URL is the endpoint with a query that reads back as the client id, the fields of the request and nothing else, its `scope` being the fold of the configured and then the request's scopes |
| Oidc.IdentityIsJustified | auth-oidc/src/lib.rs:479-519 | An identity implies a non-encryption key that the header's own `kid` names, within the ceiling or in a set fetched by this call or by one it waited for, a genuine signature over exactly the transmitted bytes, no critical extension, and claims of that same payload that pass the policy |
| Oidc.IdentitiesFitTheConfiguration | auth-oidc/src/lib.rs:410-431 | The claims of an identity name the configured issuer and the audience of their path, and its roles are those of the configured claim |
| Oidc.UnwindsExactlyWhen | auth-oidc/src/lib.rs:494-507 | A verification is unwound iff its own last fetch panicked; otherwise a refused signature is a rejection |
| Oidc.PassesExactlyForeignTokens | auth-oidc/src/lib.rs:486-491 | A token is passed on iff no header, payload and signature make it up |
| Oidc.SignedTokensReachTheClaims | auth-oidc/src/lib.rs:494-518 | A genuinely signed token whose key is cached within the ceiling gets the verdict of its claims, also while the provider is down and while another request is fetching |
| Oidc.LoginAgreesWithBearer | auth-oidc/src/lib.rs:593-597 | Login and bearer give every token the same verdict iff `client_id` is unset or names the audience |
| Oidc.BearerOnly | auth-oidc/src/lib.rs:422-427 | Otherwise there is a token that the bearer path identifies and the login path rejects |
| ConcurrentOidc.ConcurrentIdentityIsJustified | auth-oidc/src/lib.rs:479-519 | The same justification when any number of requests share the cache |
| ConcurrentOidc.ConcurrentTokensAreAccepted | auth-oidc/src/lib.rs:494-507 | With any number of requests, the lookup for a genuinely signed token whose key stays published succeeds, short of a panic |

## Left out

- The HTTP client, TLS and the capped body read: a fetch answers a body, an error or a panic.
- RSA and ECDSA arithmetic: a predicate over key material, message and signature.
- JSON text parsing: headers and claims come from parameters of the model, and a JWKS document is a list of entries, each usable or not.
- Discovery, endpoint resolution, the token-exchange form and the plugin ABI: straight-line configuration.
- Error texts, escaping and logging: only which error it is.
- KeyCache.JwksCache.Refresh: while a call of the sequential object waits, others act in one stroke, and between its own sections nobody does; interleavings are in `CacheProtocol`.
- Time spent: the model has no duration of a fetch and no fairness beyond "a started fetch returns or panics".
- A check with state of its own: `f` is a function of the key, which `verify_signature` is, its memo included (`Jwt.LookupWithMemo`).
- Two requests filling one memo at the same moment: both compute the same material, and the model fills it in one step.
