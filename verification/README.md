# Verified model of the GuardTime backend's protocols

The services of this backend are small protocols over shared rows and a TTL cache. Each module
models one of them and proves what its callers rely on, over every run.

Two forms stand side by side. Where requests interleave, every awaited read or write is an
event of a state machine (`State`, `Event`, `Enabled`, `Apply`, `Run`), and the results are about all
runs. Beside it a class with the source's fields has the source's methods, and each method's
`ensures` says that the method, with nothing in between, is a run of those events or computes the
function the results are about, and what it leaves on the rows. Clocks, random tokens, adapter verdicts and
the push SDK's answers are parameters.

| file | what it models |
|---|---|
| `Common.dfy`, `Text.dfy`, `Rows.dfy` | nullable columns, errors, queries; ASCII text; the device row |
| `SuffixIndex.dfy`, `DnsPolicy.dfy` | the candidate lookup over listed names; the uncached policy chain, one read at a time |
| `CacheKeys.dfy` | the text keys of the cache |
| `DnsCache.dfy`, `DnsFresh.dfy`, `DnsChecks.dfy` | the versioned decision cache: its steps, its freshness invariant with the exact condition on a bump's write, runs of checks |
| `DnsExact.dfy`, `DnsDiscipline.dfy`, `DnsTheorems.dfy`, `DnsWitness.dfy` | that the condition is needed; a discipline callers can keep that implies it; main results; the runs that break them |
| `DnsMoments.dfy` | when an answer is the engine's at one moment |
| `DnsService.dfy`, `DnsRefinement.dfy` | checks, bumps, lock, unlock, block and unblock as methods on the text-keyed cache; that they refine the state machine |
| `Refresh.dfy`, `Lockout.dfy` | refresh-token rotation; account lockout |
| `GatewayTokens.dfy`, `Bandwidth.dfy` | gateway token rotation and the agents' handover; layered bandwidth limits |
| `Pairing.dfy`, `PairingTheorems.dfy`, `PairingRuns.dfy` | the pairing protocol with its confirm transaction write by write; what holds in every run; time order and overlap |
| `PairingService.dfy`, `PairHostname.dfy` | the pairing methods; the probe hostname |
| `Push.dfy`, `PushOutcomes.dfy` | multicast with retry, and pruning; the calls and lists from the SDK's answers alone |
| `Sessions.dfy`, `SessionRuns.dfy`, `SessionsService.dfy` | sessions, their two clocks, their runs, their methods and the minute check |
| `Bedtime.dfy` | the bedtime window, the daily limit and the schedule tick |
| `RouterQueue.dfy` | the router command queue |
| `Reports.dfy` | report windows, daily buckets, per-child breakdown |

## Where the code and its comments disagree

The model follows the code. Each of these is proved: a run that shows it, the exact condition, or both.

- *A version reset can never resurrect a stale decision* (`src/dns-policy/dns-policy.service.ts:74-75`): it
  can, when the next bump of an IP comes between 24 h and 24 h + 30 s + the length of a check after
  the last one (`DnsWitness.GapIsExact`: exactly then). Two overlapping bumps of one IP lose one of them, with the same
  effect (`DnsWitness.OverlapIsUnsafe`). In any run, what decides is each bump's write: whether a decision under
  the version it writes, readable or on its way, rests on older reads (`DnsExact.FreshExactlyWhenWritesAreSafe`).
- A check reads the device, the session, the list and the category at different times; its answer
  may be that of no moment of its run (`DnsWitness.TornReadsCanAllow`). It is, whatever is written, exactly when no write
  falls after its device read and up to its category read (`DnsMoments.OfOneMomentExactlyWhenUndivided`); for ALLOW or
  BLOCK alone, up to its list read (`DnsMoments.ActionOfOneMomentExactlyWhenUndivided`).
- *A cached ALLOW could keep resolving DNS for a device just blocked; same fix, applied here too*
  (`src/enforcement/enforcement.service.ts:138-141`): a block bumps the IPs its row had when it was read, so a device that
  moves to another IP before the adapter answers is still told ALLOW there from the cache
  (`DnsWitness.UnbumpedIpStaysStale`, exactly: `DnsService.SupersedesExactlyTheIpsRead`).
- *Auto-block GAMING category so DNS keeps blocking online games* (`src/scheduler/scheduler.service.ts:348`), and the
  daily limit that does the same (`src/scheduler/scheduler.service.ts:275-280`): a category block changes the reason of
  an answer and never ALLOW or BLOCK (`DnsPolicy.CategoryBlocksOnlyNameTheReason`).
- The resolver's remaining time ignores extensions: it blocks an extended session when its original
  duration is over (`SessionRuns.ClocksAgreeExactlyWithoutExtension`).
- *Caps retries against one still-WAITING session* (`src/pairing/pairing.constants.ts:24-25`): the count is
  rolled back with every failed confirm, so the cap is never reached (`PairingTheorems.AttemptLimitNeverBites`).
- *One live session per device* (`src/pairing/pairing.service.ts:38-39`): two overlapping starts leave two
  (`PairingRuns.OverlappingStartsLeaveTwo`); a run keeps to one exactly when no create finds another
  (`PairingTheorems.OneSessionExactlyWhenCreatesFindNone`).
- Last-seen times go back when a later heartbeat writes before an earlier one
  (`PairingRuns.OverlapTakesTimeBack`, exactly: `PairingRuns.OrderKeptExactlyWhenTimely`).
- Overlapping rotations of one gateway bring a retired token back and lock out the current one
  (`GatewayTokens.OverlapRevives`; exactly: `GatewayTokens.RetiredExactlyWhenNoneRevives` and
  `GatewayTokens.CurrentKeptExactlyWhenInTime`).
- A pause or resume that overlaps a stop or an expiry brings the session back to life
  (`SessionRuns.FinishedStaysExactlyWithoutStaleWrites`); a pause that overlaps two extensions leaves more remaining
  minutes than were granted (`SessionRuns.OverlappedPauseExceeds`, exactly: `SessionRuns.BoundedExactlyWhenPausesFit`);
  two overlapping extensions, or a resume written late, can leave a session active past its granted time with the ticks
  on time (`SessionRuns.LostExtensionOverruns`, `SessionRuns.LateResumeOverruns`, exactly:
  `SessionRuns.NoneRunOutExactlyWhenWritesReach`).
- A schedule tick that overlaps a parent's lock can undo it
  (`Bedtime.OverlappedTickTakesTheLock`, exactly: `Bedtime.ParentLockKeptExactlyWhenSpared`), and one that overlaps an unlock
  can leave a device unlocked in its window (`Bedtime.OverlappedTickMissesTheWindow`, exactly:
  `Bedtime.EnforcedThroughoutExactlyWhenSettled`). Switching auto-block off during bedtime leaves the device locked
  (`Bedtime.SwitchedOffLockStays`, exactly: `Bedtime.LockedExactlyUntilLifted`).
- An invalid push token that another user registers while the multicast runs is deleted from that user
  (`Push.PruneTakesAnothersRow`, exactly: `Push.PruneIsExact`).
- Two overlapping polls of one gateway deliver a command twice (`RouterQueue.OverlappingPollsDeliverTwice`), and a command
  acknowledged before it was delivered never is (`RouterQueue.EarlyAcknowledgementLoses`); nothing else breaks the queue
  (`RouterQueue.ConservedExactlyWhenKept`).
- With a colon in its domain a query can share its cache key with another (`CacheKeys.ColonsBreakInjectivity`, exactly:
  `CacheKeys.CollideExactlyWhenBehind`).

## Model

| member | source | states |
|---|---|---|
| SuffixIndex.BuildCandidates | src/dns-policy/dns-policy.service.ts:265-273 | the loop over split and rejoined labels yields exactly the names that contain a dot and equal the query or have it under them |
| SuffixIndex.CandidatesAreTheNamesAbove | src/dns-policy/dns-policy.service.ts:265-279 | a name is a candidate if and only if it contains a dot and the query equals it or ends with "." plus it |
| SuffixIndex.UnderIsClosedUnderSubdomains | src/dns-policy/dns-policy.service.ts:264-280 | what lies under a name still does with any labels put in front |
| SuffixIndex.StrictScanIsTheSuffixIndex | src/dns-policy/dns-policy.service.ts:42-45 | the linear scan of the DoH names and the candidate lookup give the same verdict for every domain |
| SuffixIndex.StrictNamesAreDotted | src/dns-policy/dns-policy.service.ts:15-30 | every DoH name contains a dot, so the two tests agree on the list in force |
| DnsPolicy.FindDevice | src/dns-policy/dns-policy.service.ts:123-127 | a device is found exactly when some row has the IP in one of its three columns, and it has it |
| DnsPolicy.FoundByAnyAddress | src/dns-policy/dns-policy.service.ts:123-127 | in the columns' terms: no device is found if and only if none has the address as IPv4, source or IPv6 address |
| DnsPolicy.FindSession | src/dns-policy/dns-policy.service.ts:179-185 | the session found is active or paused, of that device, and started no earlier than any other such |
| DnsPolicy.LatestLiveSessionDecides | src/dns-policy/dns-policy.service.ts:179-185 | in the columns' terms: none if and only if the device has neither an active nor a paused session, else the latest started of them |
| DnsPolicy.FindBlocked | src/dns-policy/dns-policy.service.ts:276-279 | a row is found exactly when some listed name is a candidate, and it is one |
| DnsPolicy.LookupIsListed | src/dns-policy/dns-policy.service.ts:264-280 | the lookup succeeds exactly when the domain is, or is under, a listed dotted name |
| DnsPolicy.UncachedBlocksExactlyWhen | src/dns-policy/dns-policy.service.ts:123-242 | the chain of reads answers BLOCK if and only if there is a device and it is under strict mode, locked, blocked, out of time, or asks for a listed name |
| DnsPolicy.UncachedReasonPrecedence | src/dns-policy/dns-policy.service.ts:141-241 | each reason, and none, is given exactly when its condition holds and no earlier one does: strict DoH, lock, manual block, time, category, domain |
| DnsPolicy.ActionIgnoresWhichRowMatched | src/dns-policy/dns-policy.service.ts:206-234 | ALLOW or BLOCK does not depend on the order of the list, so not on which matching row a query returns |
| DnsPolicy.GrowingTheListNeverUnblocks | src/dns-policy/dns-policy.service.ts:206-234 | with more rows a check says BLOCK exactly when it did before, or the IP has a device and the name is now listed |
| DnsPolicy.CategoryBlocksOnlyNameTheReason | src/dns-policy/dns-policy.service.ts:206-234 | whatever the check's reads saw, other category blocks give the same action and at most swap CATEGORY_BLOCKED and DOMAIN_BLOCKED |
| DnsPolicy.BlockingCoversSubdomains | src/dns-policy/dns-policy.service.ts:264-280 | a listed domain's subdomains are listed too |
| DnsPolicy.LockedIsBlocked | src/dns-policy/dns-policy.service.ts:155-176 | whatever the later reads see, a check that reads a locked or blocked device answers BLOCK |
| CacheKeys.DecimalInjective | src/dns-policy/dns-policy.service.ts:88 | printed version numbers are distinct |
| CacheKeys.CacheKeyInjective | src/dns-policy/dns-policy.service.ts:87-88 | for domains without a colon the decision key determines IP, version and domain, IPv6 addresses included |
| CacheKeys.ColonsBreakInjectivity | src/dns-policy/dns-policy.service.ts:88 | with a colon in the domain two different checks share a key |
| CacheKeys.CollideExactlyWhenBehind | src/dns-policy/dns-policy.service.ts:88 | two domains can share a key if and only if one is the other behind a colon, and what stands before that colon is, from the colon before it on, a printed number |
| CacheKeys.KeyFamiliesDisjoint | src/dns-policy/dns-policy.service.ts:47-57 | decisions, versions, device ids and heartbeats never share a key |
| DnsCache.BasePreserved | src/dns-policy/dns-policy.service.ts:70-242 | every step keeps: each check, cached decision and reply carries the moments it was read at, all within the check length plus 30 s, and replays to its answer |
| DnsCache.BaseAlways | src/dns-policy/dns-policy.service.ts:70-242 | so for every run, and history and bump logs only grow |
| DnsFresh.WriteIsSafeExactlyWhenFresh | src/dns-policy/dns-policy.service.ts:70-78 | decisions in use under current versions stay fresh over a bump's write if and only if none under the version it writes rests on older reads |
| DnsFresh.StepIsSafeExactlyWhenFresh | src/dns-policy/dns-policy.service.ts:59-103 | the invariant on all books, timestamps and decisions survives a step of any interleaving if and only if that step is not such a write |
| DnsExact.UnsafeWriteGoesStale | src/dns-policy/dns-policy.service.ts:70-103 | after any other write a continuation of checks alone gets a reply older than a bump completed before it was begun |
| DnsExact.FreshExactlyWhenWritesAreSafe | src/dns-policy/dns-policy.service.ts:59-103 | for every run: from no state can the run go on, without another bump's write, to a stale reply, if and only if every bump's write is safe |
| DnsDiscipline.BumpSupersedes | src/dns-policy/dns-policy.service.ts:70-78 | in disciplined runs no version in use by a check in flight or a readable decision exceeds the version a bump has found |
| DnsDiscipline.DisciplinedFromStart | src/dns-policy/dns-policy.service.ts:59-90 | runs whose bumps of one IP do not overlap and keep out of the window after the last one have only safe writes |
| DnsFresh.HitIsFresh | src/dns-policy/dns-policy.service.ts:87-103 | a hit rests only on reads made after every bump completed before the check began |
| DnsFresh.InvAlways | src/dns-policy/dns-policy.service.ts:59-90 | and so every run of safe writes |
| DnsTheorems.ReplayIsChain | src/dns-policy/dns-policy.service.ts:119-241 | reads made one by one at any moments give the policy chain on the view those moments show |
| DnsTheorems.BoundedStaleness | src/dns-policy/dns-policy.service.ts:80-242 | in every run, whoever writes: each reply is the policy chain on reads made one after another, each at most a check length plus 30 s old, and the uncached engine at one such moment when no write fell between them |
| DnsMoments.OfOneMomentExactlyWhenUndivided | src/dns-policy/dns-policy.service.ts:119-241 | for reads and writes at given places of a history: the answer is the uncached engine's at one of its moments, whatever is written, if and only if no write falls after the device read and up to the category read |
| DnsMoments.ActionOfOneMomentExactlyWhenUndivided | src/dns-policy/dns-policy.service.ts:119-241 | its action is, if and only if no write falls after the device read and up to the list read |
| DnsTheorems.UndisturbedIsUncached | src/dns-policy/dns-policy.service.ts:119-241 | reads of one database give the uncached engine's answer on it |
| DnsTheorems.FreshFromBegin | src/dns-policy/dns-policy.service.ts:64-103 | a check begun after the k-th bump of its IP is answered from reads since that bump |
| DnsTheorems.FreshAfterInvalidation | src/devices/devices.service.ts:109-143 | after a write and a later bump of an IP, every check of that IP begun later is answered from reads no older than the write, for every interleaving with checks in flight whose bumps write safely |
| DnsTheorems.LockTakesEffect | src/devices/devices.service.ts:105-125 | while every database since the write shows the device locked or blocked, such a check is answered BLOCK |
| DnsTheorems.LockIsEnforced | src/devices/devices.service.ts:105-125 | write, bump and check put together: BLOCK, in every run of safe writes in which the device stays locked |
| DnsWitness.WindowIsUnsafe | src/dns-policy/dns-policy.service.ts:73-76 | for every check length and every gap in the window: a run in which a check begun after the bump of a locked device is told ALLOW |
| DnsWitness.SafeGapsAreDisciplined | src/dns-policy/dns-policy.service.ts:73-76 | runs whose gaps lie outside the window meet the freshness theorem's condition |
| DnsWitness.GapIsExact | src/dns-policy/dns-policy.service.ts:73-76 | all runs that keep a given gap reply fresh if and only if the gap lies outside the window |
| DnsWitness.OverlapIsUnsafe | src/dns-policy/dns-policy.service.ts:73-76 | for every check length, a run with two overlapping bumps in which a later check is told ALLOW from before the lock |
| DnsWitness.TornReadsCanAllow | src/dns-policy/dns-policy.service.ts:119-241 | a run whose check replies ALLOW though the uncached engine says BLOCK at every moment of its history |
| DnsWitness.UnbumpedIpStaysStale | src/enforcement/enforcement.service.ts:52-63 | a run, every bump safe, in which a locked device is told ALLOW from an IP it has and the operation did not bump |
| DnsService.BumpAllCounts | src/dns-policy/dns-policy.service.ts:70-78 | the loop raises an IP's version by the number of times it is given, and no other IP's; null and empty entries are skipped |
| DnsService.DnsPolicyService.InvalidateSourceIps | src/dns-policy/dns-policy.service.ts:70-78 | the loop leaves the cache `BumpAllCounts` speaks of |
| DnsService.DnsPolicyService.CheckPolicy | src/dns-policy/dns-policy.service.ts:80-242 | the statements compute the check that `DnsRefinement.CheckRefines` is about: a live decision of the current version, otherwise the uncached engine's answer cached for 30 s under that version |
| DnsRefinement.CheckRefines | src/dns-policy/dns-policy.service.ts:80-242 | for domains without a colon, a check on the text-keyed cache is the state machine's begin and hit, or begin, miss, at most five reads and store: the reply to that IP and domain at that time is the same, and the caches correspond, expiry times included |
| DnsChecks.FiveReadsDecide | src/dns-policy/dns-policy.service.ts:119-241 | reads of one moment decide within five, and as the uncached engine does |
| DnsRefinement.InvalidationRefines | src/dns-policy/dns-policy.service.ts:70-78 | invalidating a list of IPs is the state machine's begin and write of a bump for each, in order; the listed IPs' logs grow, and logs grow by bumps of that moment only |
| DnsRefinement.OperationRefines | src/devices/devices.service.ts:109-143 | a successful operation is one database write followed by the bumps of the row's IPs, each logged at or after the write |
| DnsRefinement.OperationIsSeen | src/devices/devices.service.ts:109-143 | from a reachable state: after a successful operation of any kind, every check begun later from an IP of the row is answered from reads that have seen its write, in every run of safe writes |
| DnsRefinement.OperationIsEnforced | src/enforcement/enforcement.service.ts:52-75 | and after a lock or block is answered BLOCK while the device stays locked or blocked |
| DnsRefinement.OperationIsLifted | src/devices/devices.service.ts:127-143 | likewise after an unlock or unblock no later check is refused for the lock or the manual block while the device stays free of both |
| DnsService.DnsPolicyService.Decide | src/dns-policy/dns-policy.service.ts:135-241 | the code's branches compute the uncached engine |
| DnsService.DnsPolicyService.DecideByDomain | src/dns-policy/dns-policy.service.ts:205-241 | the nested tests on the matching row agree with the engine's last two phases |
| DnsService.DevicesService.LockInternet | src/devices/devices.service.ts:109-125 | ownership errors change nothing; otherwise the row, and no other, has the four lock columns of that reason and time, and all three IPs are bumped |
| DnsService.DevicesService.UnlockInternet | src/devices/devices.service.ts:127-143 | likewise for the unlocked columns |
| DnsService.EnforcementService.BlockDevice | src/enforcement/enforcement.service.ts:52-75 | whatever changes while the adapter runs: exactly when it succeeds, the row as it then is has BLOCKED and its other columns, no other row changes, and the IPs the row had before are bumped; missing, foreign and meanwhile deleted rows give their errors |
| DnsService.SupersedesExactlyTheIpsRead | src/enforcement/enforcement.service.ts:53-63 | such an operation raises the version of exactly the IPs the row had when it was read |
| DnsService.AcrossNothing | src/enforcement/enforcement.service.ts:52-63 | with nothing in between it is the uninterrupted operation the refinement is about |
| DnsService.EnforcementService.UnblockDevice | src/enforcement/enforcement.service.ts:77-99 | likewise with ONLINE |
| DnsService.EnforcementService.HandleOfflineViolation | src/enforcement/enforcement.service.ts:160-192 | an expiry blocks the device with write and bump, except an unsupported one without a gateway |
| DnsService.OperationSupersedes | src/enforcement/enforcement.service.ts:142-144 | a successful operation strictly raises the version of each of the row's IPs |
| DnsService.LockedRowIsBlocked | src/devices/devices.service.ts:113-124 | after a lock or block the engine blocks whatever is asked from any IP that resolves to the device |
| DnsService.LiftedRowIsFree | src/enforcement/enforcement.service.ts:77-99 | the mirror: after an unlock the engine's reason is not the lock, after an unblock not the manual block, and free of both only strict mode, time and lists still block |
| Refresh.InvPreserved | src/auth/auth.service.ts:129-199 | every step keeps: stored tokens belong to their user, nothing is installed or redeemed twice, a redeemed token is not stored |
| Refresh.EachTokenRedeemedAtMostOnce | src/auth/auth.service.ts:147-158 | under every interleaving of refreshes, logins and logouts each refresh token is exchanged at most once, and one that was never matches again |
| Refresh.RedeemedExactlyBySwaps | src/auth/auth.service.ts:152-159 | a token is exchanged exactly when the swap finds it still stored, and then the new one is the only one that matches |
| Refresh.ReplacedNeverReturns | src/auth/auth.service.ts:148-158 | a token once stored and no longer stored never becomes redeemable again |
| Refresh.NoRefreshAfterLogout | src/auth/auth.service.ts:162-167 | after a logout no refresh of the user succeeds until a login installs a token |
| Refresh.OthersKeepTheirTokens | src/auth/auth.service.ts:152-176 | a step changes the stored token of no user but the one logged out, or whose token is swapped or installed |
| Refresh.TokenStaysGood | src/auth/auth.service.ts:129-176 | so through any run of other users' requests a stored token stays redeemable |
| Refresh.WritersWriteTheirRow | src/auth/auth.service.ts:152-176 | a refused swap writes nothing, after a logout no token of the user matches, after an install its own token alone does |
| Refresh.RequestsGoTheirWay | src/auth/auth.service.ts:129-160 | no step touches another request; a refresh is admitted exactly with the stored token, and what is signed is new and for that user |
| Refresh.AuthService.Refresh | src/auth/auth.service.ts:129-160 | an uninterrupted refresh is the protocol's read, mint and swap; it succeeds exactly for a verified stored token, whose place a new token of that user takes, and changes no other row |
| Refresh.AuthService.IssueTokens | src/auth/auth.service.ts:170-177 | an uninterrupted login is mint and install, and its new token is what the user's row stores |
| Refresh.AuthService.Logout | src/auth/auth.service.ts:162-167 | a logout is the protocol's: that user has no token, every other row is as it was |
| Lockout.LockedExactlyFromTheFifth | src/auth/auth.service.ts:98-124 | `lockedUntil` is set if and only if five or more attempts have failed since the last success |
| Lockout.OneMoreLogin | src/auth/auth.service.ts:86-124 | on the row: a login turned away changes nothing, a success leaves no attempt and no lock, a failure one attempt more and from the fifth on 15 minutes of lock |
| Lockout.OneMoreComparison | src/auth/auth.service.ts:86-99 | its password is compared exactly when it is not turned away |
| Lockout.CountsComparisons | src/auth/auth.service.ts:86-113 | in a stretch without a success, right passwords turned away included, the counter is the number of password comparisons, and the lock lasts 15 minutes past the last |
| Lockout.Spacing | src/auth/auth.service.ts:86-113 | from the fifth on, comparisons are at least 15 minutes apart |
| Lockout.RateBound | src/auth/auth.service.ts:76-127 | the k-th comparison comes no earlier than (k - 5) times 15 minutes after the fifth |
| Lockout.LoginGate.Login | src/auth/auth.service.ts:86-124 | the checks and writes of one login, refused before any comparison while the lock lasts |
| GatewayTokens.InvPreserved | src/gateway/gateway.service.ts:132-200 | every step keeps token ownership and uniqueness across gateways and rotations under way |
| GatewayTokens.TokensIdentifyGateways | src/common/guards/gateway-token.guard.ts:43-60 | in every run a token authenticates as at most one gateway, and a gateway accepts at most two tokens |
| GatewayTokens.RevivedExactlyByStaleRotation | src/gateway/gateway.service.ts:173-188 | a step makes a token that authenticates nowhere authenticate again if and only if it is the write of a rotation that had found that token current, within that rotation's grace time |
| GatewayTokens.RetiredExactlyWhenNoneRevives | src/gateway/gateway.service.ts:173-200 | so in every run a retired token stays retired if and only if no such write happens |
| GatewayTokens.RetiredForGood | src/gateway/gateway.service.ts:173-200 | in particular when the rotations of a gateway do not overlap |
| GatewayTokens.SecondRotationRetires | src/gateway/gateway.service.ts:181-188 | a token rotated out a second time is retired, if and only if that rotation had not found that very token |
| GatewayTokens.ExpiryRetires | src/common/guards/gateway-token.guard.ts:51-56 | so is one past its grace time |
| GatewayTokens.OverlapRevives | src/gateway/gateway.service.ts:173-188 | a run with two overlapping rotations in which a retired token authenticates again and the current one does not |
| GatewayTokens.CurrentLostExactlyByRotation | src/gateway/gateway.service.ts:173-188 | a step locks out some gateway's current token if and only if it writes a rotation that had not found that token, or whose grace time is over |
| GatewayTokens.CurrentKeptExactlyWhenInTime | src/gateway/gateway.service.ts:173-200 | so in every run no step does if and only if every rotation is written alone and in time |
| GatewayTokens.GraceIsGranted | src/gateway/gateway.service.ts:173-189 | a rotation begun at time n, whatever comes before its write: from the write on the token it replaced passes the guard exactly before n plus the grace period |
| GatewayTokens.OtherGatewaysUntouched | src/gateway/gateway.service.ts:132-200 | a step on one gateway leaves the rows and agents of all others |
| GatewayTokens.DeletedAndRefused | src/common/guards/gateway-token.guard.ts:43-73 | a deleted gateway's tokens authenticate nowhere; an agent is refused exactly when the guard refuses its token |
| GatewayTokens.Handover | src/gateway/gateway.service.ts:287-299 | in every run from the start, an agent that polls between rotations and within each grace period is never refused, and holds the current token after a poll begun since the last rotation |
| GatewayTokens.HandoverStep | src/gateway/gateway.service.ts:287-299 | each orderly step keeps that, and a poll no rotation overtook ends with the agent on the current token |
| GatewayTokens.AgentAccepted | src/common/guards/gateway-token.guard.ts:43-60 | the token an agent holds passes the guard |
| GatewayTokens.GatewayService.Register | src/gateway/gateway.service.ts:132-152 | a registered gateway's token passes the guard at once |
| GatewayTokens.GatewayService.RotateToken | src/gateway/gateway.service.ts:173-200 | an uninterrupted rotation is the protocol's read and write; at every later time the new token passes, and the replaced one exactly before now plus the grace period; the errors change nothing |
| GatewayTokens.GatewayService.CanActivate | src/common/guards/gateway-token.guard.ts:36-75 | exactly the accepted tokens pass, as the gateway they identify, flagged if the previous token was used |
| GatewayTokens.GatewayAgent.Poll | src/gateway/gateway.service.ts:260-299 | an uninterrupted poll, guard and then policies, is the protocol's authentication and fetch, adoption of `rotatedToken` included |
| Bandwidth.ResolveBandwidthLimits | src/gateway/gateway.service.ts:358-380 | the two loops over the insertion-ordered map give the layered resolution the next rows are about |
| Bandwidth.BandwidthOfDevices | src/gateway/gateway.service.ts:325-350 | the batched query and the resolution of each device give every device what all enabled rows resolve to for it |
| Bandwidth.BatchedQueryIsExact | src/gateway/gateway.service.ts:335-350 | for every device of the gateway, resolving against the batched query gives the list that all enabled rows would |
| Bandwidth.SetIsPut | src/gateway/gateway.service.ts:362-373 | setting a category replaces its own entry, leaves all others and keeps categories distinct |
| Bandwidth.SetKeepsPlaces | src/gateway/gateway.service.ts:362-373 | a category already in the map keeps its place, a new one goes last |
| Bandwidth.SetAllIsLast | src/gateway/gateway.service.ts:364-373 | after a loop each category holds the last row for it |
| Bandwidth.DeviceRowsOverrideChildRows | src/gateway/gateway.service.ts:352-380 | each category appears at most once, and its value is the last device-scoped row for it, otherwise the last of the device's child |
| Bandwidth.OneRowCounts | src/gateway/gateway.service.ts:362-373 | a row counts for its own device, or, naming no device, for the devices of its child |
| Pairing.InvPreserved | src/pairing/pairing.service.ts:158-229 | every step of every interleaving, transactions under way included, keeps locks, sessions, working copies, redeemed tokens, beacons, IPs and stamps consistent |
| PairingTheorems.TokenConfirmedAtMostOnce | src/pairing/pairing.service.ts:158-204 | however many confirms read one session as WAITING, its token is confirmed at most once |
| PairingTheorems.ConfirmIsAllOrNothing | src/pairing/pairing.service.ts:159-203 | of the steps of a confirm only its commit shows any of mark, history, event and delete, and shows all four; its writes before and its rollback change no table, and a late confirm changes the pair status alone |
| PairingTheorems.OtherDevicesUntouched | src/pairing/pairing.service.ts:32-229 | a step writes the row of one device at most |
| PairingTheorems.OtherSessionsUntouched | src/pairing/pairing.service.ts:32-229 | creates, changes and deletes sessions of one device at most |
| PairingTheorems.OtherHistoriesUntouched | src/pairing/pairing.service.ts:32-229 | and writes history and log of one device at most |
| PairingTheorems.OneColumnWrites | src/pairing/pairing.repository.ts:76-85 | the status write of a start, the last-seen write and gateway discovery each change their one column |
| PairingTheorems.PairedStays | src/pairing/pairing.repository.ts:54-89 | a paired device stays paired and keeps a beacon token |
| PairingTheorems.LogReplaysToPublicIp | src/pairing/pairing.repository.ts:54-113 | in every reachable state the last connection event's IP is the public IP, which is in the IP history exactly for paired devices |
| PairingTheorems.AttemptLimitNeverBites | src/pairing/pairing.service.ts:166-177 | in every reachable state each committed session shows zero attempts and WAITING, each working copy past the increment shows one, and no device is FAILED |
| PairingTheorems.FirstSeenIsFixed | src/pairing/pairing.repository.ts:95-101 | a history row is never lost and its first-seen time never changes |
| PairingTheorems.NothingPairsAfterCancel | src/pairing/pairing.service.ts:120-127 | after a cancel no confirm for the device commits, not even one under way, until pairing starts again |
| PairingTheorems.ChainIsTrueExactlyWhenCalm | src/pairing/pairing.service.ts:212-223 | with no other writer, every IP change names the IP of the event before it if and only if no heartbeat overwrites an IP it has not read |
| PairingTheorems.ChangesAlwaysDiffer | src/pairing/pairing.service.ts:218-223 | an IP change's `previous` always differs from its own IP |
| PairingTheorems.TwoSessionsExactlyByCreate | src/pairing/pairing.service.ts:38-43 | with at most one session of a device, a step leaves more if and only if it creates one while another is there |
| PairingTheorems.OneSessionExactlyWhenCreatesFindNone | src/pairing/pairing.service.ts:38-43 | so in every run there is at most one at every state if and only if no create finds one |
| PairingTheorems.StartFindsNone | src/pairing/pairing.service.ts:38-43 | a start that runs alone finds none, and leaves exactly its own |
| PairingRuns.EarlierExactlyByLateWrites | src/pairing/pairing.service.ts:189-228 | a step takes a last-seen time back, on a row or in the history, if and only if it writes a time earlier than the one stored there |
| PairingRuns.OrderKeptExactlyWhenTimely | src/pairing/pairing.service.ts:189-228 | so in every run no last-seen time goes back if and only if every write is timely |
| PairingRuns.SerialRunsKeepOrder | src/pairing/pairing.service.ts:212-228 | one request per device at a time: last-seen times never go back and, without gateway discovery, the log is a true chain |
| PairingRuns.OverlapTakesTimeBack | src/pairing/pairing.service.ts:212-228 | a run from the start in which the second of two overlapping heartbeats takes a history row's last-seen time from 5 to 0 |
| PairingRuns.OverlapBreaksTheChain | src/pairing/pairing.service.ts:212-223 | a run from the start of two overlapping heartbeats whose events name the same `previous` |
| PairingRuns.OverlappingStartsLeaveTwo | src/pairing/pairing.service.ts:38-43 | a run of two overlapping starts that leaves two |
| PairingService.PairingService.constructor | src/pairing/pairing.service.ts:26-29 | the service starts in the protocol's initial state |
| PairingService.PairingService.StartPairing | src/pairing/pairing.service.ts:32-59 | ownership errors change nothing; otherwise delete, create and status write in that order: of the device's waiting sessions only the new one is left, valid for ten minutes, and no other row changes |
| PairingService.PairingService.CancelPairing | src/pairing/pairing.service.ts:120-127 | only the device's waiting sessions go |
| PairingService.PairingService.TryConfirmPairingSession | src/pairing/pairing.service.ts:158-204 | an uninterrupted confirm is the protocol's; a waiting session, in time and below the limit, pairs its device: session gone, row paired at that IP, IP in the history, one log entry; otherwise BadRequest, and at most the pair status changes; null exactly for unknown tokens |
| PairingService.PairingService.RecordHeartbeat | src/pairing/pairing.service.ts:212-229 | an uninterrupted heartbeat is the protocol's; a paired device's row and history take IP and time, and a change of IP is logged with the one before |
| PairingService.PairingService.ConfirmProbe | src/pairing/pairing.service.ts:138-147 | a live session token pairs, a beacon token of a paired device leaves the probe's IP in its row and history, other tokens are not found, and no other device changes |
| PairHostname.RoundTrip | src/pairing/pairing.constants.ts:39-53 | the printed hostname, in any letter case and with a trailing dot, reads back as the lower-cased token; without the dot exactly when the suffix ends in something else |
| PairHostname.OnlyHostnamesParse | src/pairing/pairing.constants.ts:43-53 | a name reads back as a token if and only if, normalised, it is that token's hostname |
| PairHostname.DefaultSuffixWorks | src/pairing/pairing.constants.ts:20 | the default zone meets that condition |
| Push.Conservation | src/push/fcm.sender.ts:116-167 | whatever the SDK answers, sent, invalid and errored together are the given tokens, duplicates included |
| Push.CallsChain | src/push/fcm.sender.ts:121-144 | at most three calls, none empty, each later one holding exactly what its predecessor left to retry |
| Push.RetriedOnlyWhenTransient | src/push/fcm.sender.ts:131-161 | a token is retried only after a failed call or a transient, non-invalid answer to that token, and never after the third |
| Push.WithMembers | src/push/fcm.sender.ts:147-161 | a token is in a list exactly when some entry of the answer puts it there |
| Push.CodesAreApart | src/push/fcm.sender.ts:25-38 | no error code is both transient and invalid, so the order of the two tests does not matter |
| Push.MulticastIsSendEach | src/push/fcm.sender.ts:68-170 | when the SDK does not throw and answers by token and attempt, one multicast ends each token, copy by copy, as its own single send would |
| PushOutcomes.CallsFollowTheAnswers | src/push/fcm.sender.ts:116-167 | from the answers alone: the first call is for all tokens, one that threw is made again with the same batch, one that was answered is followed by one for exactly the tokens with transient answers, in order, if any; the third is the last |
| PushOutcomes.FirstCall | src/push/fcm.sender.ts:107-121 | there is a call exactly when there are tokens |
| PushOutcomes.ListsFollowTheAnswers | src/push/fcm.sender.ts:132-161 | the three lists are, call by call and in order, the tokens delivered; those with an invalid code; and those failed otherwise with a code that is not transient, or in the third call, or all of a third call that threw |
| PushOutcomes.SendFollowsTheAnswers | src/push/fcm.sender.ts:80-99 | a single send ends as its first answer that is not transient says, or its third |
| Push.FcmSender.SendMulticast | src/push/fcm.sender.ts:107-170 | skipped exactly for some tokens and no configuration; otherwise the three lists and calls the lemmas are about, and conservation |
| Push.FcmSender.Classify | src/push/fcm.sender.ts:146-161 | the loop over one answer splits the batch by fate, in order |
| Push.FcmSender.Send | src/push/fcm.sender.ts:68-99 | the single send's loop ends as the recursive retry says; unconfigured it is skipped |
| Push.PushService.SendToUser | src/push/push.service.ts:40-64 | one multicast to the user's tokens, rows changing meanwhile, then the rows of the invalid tokens go, whoever holds them, unless the delete fails |
| Push.PruneIsExact | src/push/push.service.ts:51-57 | with registrations and removals during the multicast: a token has no row once it was found invalid, and otherwise the row it has by then; the row that goes is another user's if and only if the last change of that token made it so |
| Push.PruneTakesAnothersRow | src/push/push.service.ts:51-57 | an input: a token found invalid for one user and registered by another meanwhile is deleted from the other |
| Push.OthersKeepTheirRows | src/push/push.service.ts:51-57 | without registrations in between, a row goes exactly when it is that user's and its token invalid |
| SessionRuns.InvPreserved | src/sessions/sessions.service.ts:38-132 | every step, overlapping or not, keeps durations, extensions and requests consistent and remaining minutes nonnegative |
| SessionRuns.BeginAdmits | src/sessions/sessions.service.ts:51-132 | an operation is admitted by the status read: pause active, resume paused, extend either, stop any but stopped, expiry and violation any |
| SessionRuns.OtherRowsUntouched | src/sessions/sessions.service.ts:51-132 | a write changes its own row alone; a tick only active rows, and those to EXPIRED |
| SessionRuns.ColumnsOfAWrite | src/sessions/sessions.service.ts:51-132 | owner, child, device, start and duration are never written, and a violation marks its row and writes no other column |
| SessionRuns.RemainingByStatus | src/sessions/sessions.service.ts:150-173 | remaining minutes are the grant less the whole minutes since start or resume, unclamped when paused, never negative when active, zero otherwise |
| SessionRuns.BoundBrokenExactlyByPause | src/sessions/sessions.service.ts:51-94 | a step takes remaining minutes over duration plus extensions if and only if it is the write of a pause whose computed minutes exceed those of the row it finds |
| SessionRuns.BoundedExactlyWhenPausesFit | src/sessions/sessions.service.ts:38-132 | so in every run the bound holds throughout if and only if every pause fits |
| SessionRuns.RemainingIsBounded | src/sessions/sessions.service.ts:38-132 | from the start: that, and remaining minutes are never negative in any run |
| SessionRuns.OverlappedPauseExceeds | src/sessions/sessions.service.ts:51-94 | a run that leaves 130 minutes remaining of 35 granted |
| SessionRuns.RevivedExactlyByStaleWrites | src/sessions/sessions.service.ts:51-80 | a finished session becomes live by a step if and only if that step is the write of a pause or resume begun before it ended |
| SessionRuns.FinishedStaysExactlyWithoutStaleWrites | src/sessions/sessions.service.ts:38-132 | so in every run a finished session stays finished if and only if no such write happens |
| SessionRuns.UndisturbedWritesAreSafe | src/sessions/sessions.service.ts:51-132 | a write that finds the row as it was read breaks neither bound nor finish, and an extension not the granted time |
| SessionRuns.PromptResumesReach | src/sessions/sessions.service.ts:68-80 | nor does a resume written within a minute of its read |
| SessionRuns.SchedulerExpiresExactly | src/sessions/sessions.service.ts:150-173 | the floored test first holds at the millisecond the granted time is used up |
| SessionRuns.RunOutExactlyByLateWrites | src/scheduler/scheduler.service.ts:23-43 | with ticks a minute apart, an active session comes to have used up its granted time at the last tick if and only if an extension writes a total that no longer reaches past it, or a resume written late starts from a time that far back |
| SessionRuns.NoneRunOutExactlyWhenWritesReach | src/scheduler/scheduler.service.ts:23-43 | so in every run with such ticks none ever has if and only if every extension and every resume reaches |
| SessionRuns.NoneRunOutIsNoOverrun | src/scheduler/scheduler.service.ts:23-43 | which is to say that no session is active a minute or more past its granted time, whenever within its minute the next tick comes |
| SessionRuns.OverrunIsUnderAMinute | src/scheduler/scheduler.service.ts:23-43 | from the start: that, and then no active session has run a minute or more past its granted time |
| SessionRuns.LostExtensionOverruns | src/sessions/sessions.service.ts:82-94 | a punctual run of two overlapping extensions that ends with an overrun |
| SessionRuns.LateResumeOverruns | src/sessions/sessions.service.ts:68-80 | a punctual run in which a resume that finds its row as it was read, written two minutes later, ends with an overrun |
| SessionRuns.ResolverExpiresExactly | src/dns-policy/dns-policy.service.ts:187-196 | the resolver's expression is duration minus elapsed, whatever remaining and extended minutes hold |
| SessionRuns.ClocksAgreeExactlyWithoutExtension | src/dns-policy/dns-policy.service.ts:187-196 | resolver and scheduler agree at every instant if and only if the session was never extended |
| SessionRuns.ResolverIsNeverLater | src/dns-policy/dns-policy.service.ts:187-196 | whenever the scheduler sees expiry the resolver does |
| SessionRuns.OverlappedPauseRevives | src/sessions/sessions.service.ts:51-66 | a run in which a stopped session ends PAUSED |
| SessionsService.AtomicOp | src/sessions/sessions.service.ts:51-132 | an operation with nothing in between is an undisturbed run |
| SessionsService.SessionsService.Start | src/sessions/sessions.service.ts:14-49 | success exactly with the device owned, assigned, without an active session and within the limit, and then one more active session of those minutes; each error's cause; nothing written on error |
| SessionsService.SessionsService.Pause | src/sessions/sessions.service.ts:51-66 | the protocol's operation, or the right error and no change; it succeeds exactly for the parent's active session, which becomes PAUSED with the minutes left of its grant |
| SessionsService.SessionsService.Resume | src/sessions/sessions.service.ts:68-80 | the protocol's operation, or the right error and no change; exactly for a paused one, which becomes ACTIVE as of now |
| SessionsService.SessionsService.Extend | src/sessions/sessions.service.ts:82-94 | the protocol's operation, or the right error and no change; exactly for an active or paused one, which gains the minutes in both columns |
| SessionsService.SessionsService.Stop | src/sessions/sessions.service.ts:96-109 | the protocol's operation, or the right error and no change; exactly for one not stopped, which becomes STOPPED with none remaining |
| SessionsService.SessionsService.Expire | src/sessions/sessions.service.ts:111-122 | any existing session expires, whatever its status |
| SessionsService.SessionsService.GetUsedMinutesToday | src/sessions/sessions.service.ts:175-188 | the reduce is the sum over the child's sessions of the day, VIOLATED ones left out |
| SessionsService.UsedMinutesOfOneMore | src/sessions/sessions.service.ts:175-188 | each session of the child begun today counts what it has used, extensions included, unless violated |
| SessionsService.SchedulerService.CheckActiveSessions | src/scheduler/scheduler.service.ts:23-43 | the loop expires exactly the active sessions whose granted milliseconds have passed since start or resume, and touches no other row |
| Bedtime.CurrentTimeRoundTrip | src/scheduler/scheduler.service.ts:218-220 | the printed clock is a valid time and parses to its minute |
| Bedtime.HhMmRoundTrip | src/scheduler/scheduler.service.ts:330-334 | a validated time is determined by its minute |
| Bedtime.WindowIsCircular | src/scheduler/scheduler.service.ts:329-336 | the test is the half-open interval of (end - start) mod 1440 minutes around the clock |
| Bedtime.SwappedWindowIsTheComplement | src/scheduler/scheduler.service.ts:329-336 | with different ends, the swapped window holds exactly outside |
| Bedtime.LockColumnsStayInStep | src/scheduler/scheduler.service.ts:228-258 | in every run, overlapping or not, locked, mode, reason and lock time agree |
| Bedtime.InBedtimeIsTheWindow | src/scheduler/scheduler.service.ts:223-226 | bedtime holds exactly with both times set and the minute in the circular window from one to the other |
| Bedtime.TickWritesByWhatItRead | src/scheduler/scheduler.service.ts:228-258 | a tick writes the four lock columns over the stored row, or none, as the row it read asks |
| Bedtime.OtherStepsWrite | src/devices/devices.service.ts:109-143 | a parent writes the same four columns, a schedule change its own three, a tick's read none |
| Bedtime.TickEnforcesTheWindow | src/scheduler/scheduler.service.ts:223-265 | a tick that finds the row as it read it leaves it locked exactly in its window or under another lock; outside no "Bedtime" lock remains; another lock is untouched |
| Bedtime.EnforcedExactlyWhenSettled | src/scheduler/scheduler.service.ts:213-265 | whatever came between a tick's read and its write: its minute is enforced on the row then stored if and only if, when it writes, that row's window answers as the one read, and when it does not, the row is in order already |
| Bedtime.EnforcedThroughoutExactlyWhenSettled | src/scheduler/scheduler.service.ts:212-265 | so in every run of ticks, overlapping or not, locks, unlocks and schedule changes: every tick enforces its minute if and only if each settles |
| Bedtime.OverlappedTickMissesTheWindow | src/scheduler/scheduler.service.ts:213-265 | a run: an unlock between a tick's read and its write leaves the device unlocked in its window |
| Bedtime.LockFollowsTheWindow | src/scheduler/scheduler.service.ts:212-265 | in every run in which no parent locks, an auto-block device is after a tick locked exactly when the minute is in its window, if and only if the tick settles, as one does that finds the row as it read it |
| Bedtime.ParentLockKeptExactlyWhenSpared | src/scheduler/scheduler.service.ts:213-258 | in every run of ticks and schedule changes, overlapping or not, a parent's lock with another reason is still there at the end if and only if no tick wrote on what it had read |
| Bedtime.ParentLockSurvives | src/devices/devices.service.ts:109-143 | ticks begun since the parent locked never write on such a lock |
| Bedtime.ParentLockLostExactlyByStaleTick | src/scheduler/scheduler.service.ts:213-258 | a tick destroys it if and only if the row it had read calls for a write |
| Bedtime.OverlappedTickTakesTheLock | src/scheduler/scheduler.service.ts:213-245 | a run: a parent's lock between a tick's read and its write becomes a bedtime lock |
| Bedtime.LockedExactlyUntilLifted | src/scheduler/scheduler.service.ts:247-258 | until a parent acts, a locked device stays locked, through schedule changes too, if and only if no tick lifts the lock |
| Bedtime.SwitchedOffLockStays | src/scheduler/scheduler.service.ts:213-216 | with auto-block off, ticks begun since leave the row as it is, bedtime lock included |
| Bedtime.SchedulerService.EnforceDeviceSchedules | src/scheduler/scheduler.service.ts:212-292 | the loop leaves every row as its own tick does and sets GAMING active for exactly the children of devices that are over their daily limit and not put to bed by this tick; it lifts no category block |
| Bedtime.LimitedExactly | src/scheduler/scheduler.service.ts:267-281 | a category block is active after the tick if and only if it was, or it is GAMING of a child with an auto-block device not just put to bed and over its nonzero limit |
| Bedtime.PlannedMinutesOfOneMore | src/scheduler/scheduler.service.ts:269-274 | each session of the device begun today counts with its planned minutes |
| RouterQueue.BrokenExactlyBy | src/router-integration/router-command.service.ts:23-64 | a step breaks "delivered, then pending, is everything enqueued in order" if and only if it marks ids no longer at the front or acknowledges a pending command |
| RouterQueue.ConservedExactlyWhenKept | src/router-integration/router-command.service.ts:23-64 | so in every run a gateway's queue is conserved at every moment if and only if no step is of those two kinds |
| RouterQueue.OverlappingPollsDeliverTwice | src/router-integration/router-command.service.ts:35-49 | a run in which two overlapping polls are given the same command |
| RouterQueue.EarlyAcknowledgementLoses | src/router-integration/router-command.service.ts:51-64 | a run in which a command acknowledged first waits for no poll and was given to none |
| RouterQueue.QueueAlways | src/router-integration/router-command.service.ts:23-64 | with one poll at a time per gateway and no early acknowledgements it is conserved at every moment of every run, for every gateway |
| RouterQueue.PollsReturnAPrefix | src/router-integration/router-command.service.ts:35-49 | a gateway's polls return a prefix of its commands in creation order, each once, whatever other gateways do |
| RouterQueue.NeverPendingAgain | src/router-integration/router-command.service.ts:42-62 | in every run at all, a delivered command never returns to PENDING |
| RouterQueue.MarkPops | src/router-integration/router-command.service.ts:42-45 | marking the front of the queue takes exactly that off |
| RouterQueue.RouterCommandService.EnqueueCommand | src/router-integration/router-command.service.ts:23-33 | one pending row at the end |
| RouterQueue.RouterCommandService.GetPendingCommands | src/router-integration/router-command.service.ts:35-49 | a whole poll returns exactly the gateway's pending commands, oldest first, and those and no others become DELIVERED |
| RouterQueue.RouterCommandService.AcknowledgeCommand | src/router-integration/router-command.service.ts:51-64 | unknown and foreign commands are refused unchanged; others become ACKNOWLEDGED on success, FAILED otherwise, and no other row changes |
| Reports.WindowsAreAdjacent | src/reports/reports.util.ts:30-42 | each window ends where the one before it starts |
| Reports.PresentWindow | src/reports/reports.util.ts:30-42 | window 0 holds now and ends with the day |
| Reports.ExactlyOneWindow | src/reports/reports.util.ts:30-42 | every instant before tomorrow lies in exactly one window, the one the quotient names |
| Reports.WindowsAddUp | src/reports/reports.util.ts:30-42 | the totals of the first k windows add up to the total between the last one's start and tomorrow |
| Reports.ResolveRange | src/reports/reports.util.ts:30-42 | the date steps give the window the rows above are about, for any days and offset |
| Reports.DaysAndOffsets | src/reports/reports.util.ts:30-42 | days start at multiples of their length, a window has at least one, and a negative offset is none |
| Reports.BucketDaily | src/reports/reports.util.ts:48-60 | each bucket is the total of its own day; items outside the window are ignored |
| Reports.BucketsAddUp | src/reports/reports.util.ts:48-60 | the buckets add up to the minutes of the window |
| Reports.TallyByChild | src/reports/reports.service.ts:132-145 | one entry per child with a session, with that child's minutes and count, and totals that match |
| Reports.SelectIsChosen | src/reports/reports.service.ts:86-94 | the query selects each session of the parent in the window, and of the child asked for, once, with its start, minutes and child, and nothing else |
| Reports.Build | src/reports/reports.service.ts:79-145 | the sessions counted are exactly those; daily buckets, session total and per-child totals are the same minutes; per-child counts add up to the number of sessions; a foreign child is refused |

## Left out

- Cryptography and token bytes: signatures, bcrypt, SHA-256 (taken as injective), HMAC, AES; a random UUID is a value never drawn before.
- HTTP, validation beyond the stated preconditions, throttling, metrics, environment and Redis configuration, Firebase initialisation.
- Audit rows, query logs, unknown-domain logs and notifications: no result depends on them.
- The heartbeat throttle of the resolver and the device-id cache it reads on a hit: they affect last-seen times only.
- Query order where the source gives none: the first row in table order, the table order being arbitrary.
- Device and user deletion with their cascades; the resolver region of a pairing.
- The guard's two lookups are one step, and so are a whole scheduler tick over sessions (an expiry that overlaps other operations is a request like theirs) and one row's turn in a schedule tick. A transaction's statements are steps of their own, under row locks, seen by others from its commit on.
- Concurrent logins on one account, whose counter can lose updates: the lockout results are for logins one after another.
- Total play time across pause and resume, one active session per device, and the daily limit as a standing invariant: the code keeps none of them.
- The category block of an expiry: one upsert, of the kind the schedule tick's is.
- Router synchronisation after a block, strategies, capability tables, device health, protection scores.
- Sorting the per-child entries for display, usage-log aggregates, the report cache.
- Daylight saving (days have a fixed length), fractions of minutes in reports, letter case outside ASCII.
- GatewayTokens.GatewayService.CanActivate: does not check a request signature, because signatures are not modelled.
- PairHostname.RoundTrip: a configured suffix in upper case is not covered, because the printed name and the pattern then differ in case.
- The bandwidth of rows scoped to both a device and a child, which `create` never makes, follows the code: they count as the device's.
