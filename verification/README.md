# Claim protocol and spawn bookkeeping of the agent task executor

An executor runs in each cluster and starts a Kubernetes Job per task. Clusters must not run the
same work twice, so every Job is covered by a *claim*: a timed lease on a claim server. Around the
claims sit shared refs (recorded successes, re-drive streaks and failure reasons), the concurrency
cap, the deferred respawns and a publish dedupe. This project models that core and proves what it
is for. `dafny verify dfyconfig.toml` checks all of it.

## How the model is built

**Claims.** `LeaseProtocol` is a step system: the claim server, its clock and, per cluster, what
that cluster's lease manager remembers. A step is one atomic event (a request landing with or
without its reply, a request landing long after its caller gave up, a Job-control answer, a change
of the held map, time passing), and every interleaving of every cluster's steps is a run. `LeaseInvariants`, `LeaseExclusion`,
`LeaseBoundaries` and `LeaseHistory` prove what holds of every run. `LeaseManagers.LeaseManager` is
the manager itself, as a class with a `held` map and loops. Its world (`ClaimWorlds.ClaimWorld`)
lets the other clusters take any protocol steps before and after each request, loses requests and
replies at will, and accepts from the manager only enabled protocol steps; so each method is also
a proof that the code keeps to the protocol, and the theorems about runs hold of its executions.
The world also keeps every reply it gave, and each method says what it did to the held map in terms
of the replies it heard: a claim is kept, dropped or left pending because of a named answer.
`LeaseOutcomes` holds those statements, `RecoveryGroups` how a restarted manager groups the listed
claims.

**Keys and refs.** `ClaimKeys` derives and parses claim keys as text. `RefStores` does the same for
the three numbered ref spaces, `RefReads` has the ref server and every read (per task, from one
listing, and through a pass's cache), `RefWrites` the writes. `RedriveEntries`, `Redrive`,
`RedriveLedgers` and `RedriveCap` follow a published failure from those writes to the cap's
decision, with the history of failures as the reference. `SuccessRace` interleaves concurrent
success records.

**Spawning.** `SpawnCap`, `SpawnClaim` and `SuccessRace` are step systems over all interleavings of
the lock holders, `Deferral` is the deferral table as a class whose methods are its critical
sections, and `Dedupe` the bounded publish dedupe and the Job watcher's failure path.

Time is in whole seconds. The server's clock is the reference; a cluster's reading lies between
`slow` seconds behind and `fast` seconds ahead of it.

## What was found

- **Exclusion.** Let every cluster complete a fence evaluation less than `d` seconds after the
  previous one. A claim is live while it is held with no Job deletion and no release pending. When
  requests land while their caller waits, and an acquire within one lease length of the read it
  rests on, no two clusters hold one single-ref key live at once, in any run, if and only if
  `d + slow <= 70 + max(0, 30 - fast)`. With perfect clocks that is 100 s, against a tick of 10 s.
- **Late requests cost the grace.** The grace before a takeover is decided by the client, so an
  acquire that outlives its caller is granted the moment the lease is over. When requests may land
  at any later time the bound is `d + slow <= 70`, again if and only if: an acquire of a process
  that went down lands, and its restarted successor adopts the claim (`LateAcquireOverlaps`).
- **A late release breaks it.** A release of a process that went down can land after its successor
  has adopted the claim with the same token; the key is then free while its Job runs
  (`LateReleaseOverlaps`). Whenever that happens any peer can have the key live three steps later
  (`LateReleaseOnLiveOverlaps`), so the theorem asks that no late release lands on such a claim.
- **One takeover breaks it, whatever the clocks.** A takeover whose acquire fails reads the key back
  and takes any record that names this cluster, without comparing tokens
  (pkg/claim/lease_manager.go:992-997). When the key held this cluster's own leftover record and the
  acquire never landed, the claim is stored with its long-expired lease and a peer can take the same
  key over at once: `StaleRecoveryOverlaps`. `StoredPastFenceExactly` shows that the token
  comparison singles out exactly these takeovers, and the exclusion theorem leaves them out.
- **The re-drive cap bounds failures per unbroken streak only.** A failure at another phase deletes
  the refs of the first one, so a task that alternates between two phases is never capped
  (`HoppingIsUnbounded`). A further spawn is refused whatever the reasons exactly when the task's
  last six events are failures at its phase inside the window (`CapBitesExactly`; `SpawnExactly`
  says what the reasons decide below that), and six is the bound for every unbroken streak
  (`RateBound`).
- The comment on the classifier says the streak counts spawns
  (pkg/handler/task_event_handler_redrive.go:285-293); the code counts published failures, and so
  does the model. The comment on the window says the cap refuses a fourth spawn
  (pkg/claim/redrive_streak_store.go:29-33); for transient reasons the code allows up to six.

## Model

| member | source | states |
|---|---|---|
| `LeaseInvariants.StepKeepsInv` | pkg/claim/lease_manager.go:501-592 | every step of every cluster, with any pattern of landed, lost and late requests and lost replies, keeps the memory of all managers in line with the server |
| `LeaseInvariants.RunKeepsInv` | pkg/claim/lease_manager_tick.go:364-470 | memory refines the server in every run: while a claim is in no pending deletion or release and the server's record names this cluster, the remembered lease is no later than the server's and the remembered token is the server's or one our own renewal or a late request of ours replaced |
| `LeaseExclusion.RequestKeepsRespect` | pkg/claim/lease_manager.go:951-965 | a peer's request replaces a live lease only once it is over, and while its caller waits only after the grace it read in the listed lease |
| `LeaseExclusion.ArrivalKeepsGuard` | pkg/claim/lease_manager.go:260-278 | a request that lands after its caller gave up, a peer's or the holder's own, replaces no lease that is still running |
| `LeaseExclusion.RunKeepsGuard` | pkg/claim/lease_manager.go:797-866 | in every disciplined run each live claim is still on the server or the delay before a takeover has passed, and was short of its fence point at the last fence evaluation |
| `LeaseExclusion.ExclusionHolds` | pkg/claim/lease_manager.go:21-41 | no two clusters hold one single-ref key live at the same time when fence evaluations are less than d apart and d + slow <= 70, plus max(0, 30 - fast) when requests land while their caller waits |
| `LeaseExclusion.LiveIsOnServer` | pkg/claim/lease_manager_tick.go:88-119 | under the same conditions a live claim's key names its holder on the server |
| `LeaseBoundaries.SlowFenceOverlaps` | pkg/claim/lease_manager.go:246-253 | for every skew and spacing beyond the bound there is a run in which two clusters hold a key live |
| `LeaseBoundaries.LateAcquireOverlaps` | pkg/claim/lease_manager.go:280-289 | for every spacing with d + slow > 70 there is a run in which an acquire that outlived its caller makes two clusters hold a key live |
| `LeaseBoundaries.LateReleaseOverlaps` | pkg/claim/lease_manager.go:1026-1033 | with perfect clocks, a release that outlived its process lands on the claim its successor adopted and two clusters hold a key live |
| `LeaseBoundaries.LateReleaseOnLiveOverlaps` | pkg/claim/lease_manager.go:692-705 | whenever a late release lands on a live claim, any peer that does not hold the key can have it live three steps later |
| `LeaseBoundaries.ExclusionExactly` | pkg/claim/lease_manager.go:920-922 | with and without late requests, exclusion holds in every disciplined and timely run if and only if the fence of the slowest holder comes before the takeover of the fastest peer |
| `LeaseBoundaries.StaleRecoveryOverlaps` | pkg/claim/lease_manager.go:972-998 | with perfect clocks, taking over one's own leftover record whose acquire did not land lets two clusters hold a key live |
| `LeaseBoundaries.StoredPastFenceExactly` | pkg/claim/lease_manager.go:992-997 | a takeover stores a claim that is past its fence point on every clock if and only if the stored token is the one its first read found |
| `LeaseHistory.NoSilentDrop` | pkg/claim/lease_manager.go:732-777 | every claim removed from the held map was preceded, while it was held, by a successful Job deletion or a not-running answer for its task |
| `LeaseHistory.HoldOutlastsReleases` | pkg/claim/lease_manager_tick.go:166-186 | before its success hold is over a claim no other path owns leaves the held map only by fence or lost lease, and the hold never shrinks |
| `LeaseHistory.HoldIsBounded` | pkg/claim/lease_manager.go:645-688 | a success hold never reaches further than the grace period from the latest clock reading |
| `LeaseHistory.FenceIsJustified` | pkg/claim/lease_manager_tick.go:88-119 | the fence lets a claim go only when it waits for its Job's deletion already or the clock reading its evaluation started with was within 70 s of the lease end |
| `LeaseHistory.JoblessReleaseIsJustified` | pkg/claim/lease_manager_tick.go:196-229 | the jobless pass drops a claim only after two of its own not-running answers at pass times at least 300 s apart with no running answer since the first |
| `ClaimWorlds.ClaimWorld.LookUp` | pkg/claim/lease_manager.go:313-322 | the first read of a claim or takeover shows the record of one instant and nothing else changes |
| `ClaimWorlds.ClaimWorld.Read` | pkg/claim/vault_api_client.go:308-309 | a read of a key shows its record or that it is free; a held claim the server no longer has is known as refused |
| `ClaimWorlds.ClaimWorld.Acquire` | pkg/claim/vault_api_client.go:269-284 | an acquire is granted on a free key or an expired lease only, to this cluster and for this task, with a lease that ends 300 s after some instant of the call; its reply may be lost, and a request that did not land in time may land during any later call |
| `ClaimWorlds.ClaimWorld.AcquireSecond` | pkg/claim/lease_manager.go:467-473 | the second ref of a pair is acquired without a read before it, and refused when it is the key just granted |
| `ClaimWorlds.ClaimWorld.Renew` | pkg/claim/vault_api_client.go:285-299 | a renewal needs the current token and grants a fresh lease of 300 s; a stale token is answered "lease lost"; every renewal sent is on record |
| `ClaimWorlds.ClaimWorld.Release` | pkg/claim/vault_api_client.go:305-307 | a release needs the current token, and its caller must have let go of the claim |
| `ClaimWorlds.ClaimWorld.ListClaims` | pkg/claim/vault_api_client.go:300-304 | the listing is every record that names the cluster |
| `LeaseManagers.LeaseManager.RequestDeadline` | pkg/claim/lease_manager.go:343-361 | the deadline is 30 s from now or 60 s before the end of the lease that ends first among the claims not pending Job deletion, whichever comes first |
| `LeaseManagers.LeaseManager.RequestContext` | pkg/claim/lease_manager.go:365-369 | every request of a tick carries such a deadline |
| `LeaseManagers.LeaseManager.FindHeld` | pkg/claim/lease_manager.go:405-415 | finds a held claim that owns a key as its primary or second ref, exactly when there is one; the empty key is owned by every single-ref claim |
| `LeaseManagers.LeaseManager.AcquirePrimary` | pkg/claim/lease_manager.go:519-550 | success means the server granted the record to this cluster for this task, or a read after a failed acquire showed one that names this cluster; a refusal is a conflict, any other failure an error |
| `LeaseManagers.LeaseManager.StoreClaim` | pkg/claim/lease_manager.go:562-592 | exactly one claim enters the held map: for the task asked for, with the token and lease end of the record (the zero time if it has none), the second ref as given, renewed at the clock reading, and no flag, hold or check set |
| `LeaseManagers.LeaseManager.FinishClaim` | pkg/claim/lease_manager.go:451-497 | a claim that is held is for the task asked for, with the token and lease of the record won and the second key asked for with the token granted for it, renewed at the clock reading and with nothing set; a pair is never half-held: a second acquire that is not granted leaves the held map as it was and releases the primary |
| `LeaseManagers.LeaseManager.ClaimPair` | pkg/claim/lease_manager.go:418-497 | an unaddressable key is an error and a held one a conflict; otherwise the claim is made only on a key its read found free, and adds exactly one claim: the task, the token and lease of the record won, the second key with its granted token, renewed at the clock reading, no flag set; each failure is explained by a reply, and a pair of equal keys always fails |
| `LeaseManagers.LeaseManager.ClaimFree` | pkg/claim/lease_manager.go:501-550 | a key its read found taken is a conflict, never taken over; on a free key the claim made is the one asked for, field by field |
| `LeaseManagers.LeaseManager.TakeoverPair` | pkg/claim/lease_manager.go:797-914 | a listed record is replaced exactly when its lease was readable and over by 30 s at the clock reading, and then its task is reported and the claim made is the one asked for, field by field; otherwise the answer is not expired, and an absent key is created; a pair of equal keys always fails |
| `LeaseManagers.LeaseManager.FinishRelease` | pkg/claim/lease_manager_tick.go:308-341 | the claim is dropped when both refs are gone from the server and is left pending release when a release failed |
| `LeaseManagers.LeaseManager.ReleaseLocked` | pkg/claim/lease_manager.go:732-777 | a claim whose Job may be running is kept; one whose Job is not running is dropped, or left pending release when a release failed |
| `LeaseManagers.LeaseManager.Release` | pkg/claim/lease_manager.go:606-628 | a claim whose hold ends after the clock reading and a key nobody owns are left alone; any other owner of the key, with no hold or one that is over, is settled by the running check; no other claim is touched |
| `LeaseManagers.LeaseManager.ReleaseAfterSuccess` | pkg/claim/lease_manager.go:645-688 | while fewer than 300 s have passed since the completion nothing but the owner's hold changes, and it becomes the later of the old hold and 300 s after the completion or after now, whichever is earlier; from then on a success releases like Release |
| `LeaseOutcomes.HoldsOnlyGrow` | pkg/claim/lease_manager.go:655-672 | a success hold is positive, at most 300 s from its reading and from the completion unless it was longer before, never pulls an existing one in, covers the 300 s after the completion, and until it ends a release at any later reading leaves the claim alone |
| `RecoveryGroups.GroupsPartition` | pkg/claim/lease_manager.go:1064-1088 | every listed claim lands in exactly one recovery group |
| `RecoveryGroups.PairExactly` | pkg/claim/lease_manager.go:1064-1080 | two listed claims are recovered as a pair exactly when one is under claims/repo/ and the other under claims/pr/ and they are all the listed claims of their task |
| `LeaseManagers.LeaseManager.RecoverFenceGroup` | pkg/claim/lease_manager.go:1136-1179 | the Job of a group with a lease that is unreadable or ends within 70 s is asked about and deleted unless it is not running, then both refs are let go; a failed deletion holds the claim pending with its listed tokens and the earlier lease |
| `LeaseManagers.LeaseManager.RecoverAdoptGroup` | pkg/claim/lease_manager.go:1217-1313 | any other group is adopted while its Job runs or is unknown: its listed tokens, the earlier of its leases, renewed at the next tick, re-checked exactly when the Job is unknown; it is released when its Job is not running |
| `LeaseManagers.LeaseManager.RecoverGroup` | pkg/claim/lease_manager.go:1092-1107 | which of the two rules applies is decided by whether one of the group's leases is unreadable or ends within 70 s of one clock reading |
| `LeaseManagers.LeaseManager.RecoverTaskGroup` | pkg/claim/lease_manager.go:1064-1088 | all claims of one task id are dealt with, as a pair or one by one |
| `LeaseManagers.LeaseManager.Recover` | pkg/claim/lease_manager.go:1034-1059 | it fails when the listing does; otherwise, from an empty held set, every listed claim is dealt with in its one group, at one reading each: its Job was seen not running and its refs were tried, or a lease was short and its Job was deleted, or it is held as listed, pending only after a failed deletion, adopted only when no lease was short; nothing else is held |
| `LeaseManagers.LeaseManager.BestEffortRelease` | pkg/claim/lease_manager.go:372-379 | both refs are tried and nothing the manager remembers changes |
| `LeaseManagers.LeaseManager.FenceClaim` | pkg/claim/lease_manager_tick.go:102-119 | a claim pending release is let go at once; otherwise its Job is deleted first, and a failed deletion leaves it pending |
| `LeaseManagers.LeaseManager.EvaluateFence` | pkg/claim/lease_manager_tick.go:88-99 | at one clock reading every claim whose lease ends within 70 s is dropped or pending Job deletion and no other claim changes |
| `LeaseManagers.LeaseManager.RetryPendingDeletions` | pkg/claim/lease_manager_tick.go:63-84 | exactly the claims pending Job deletion are retried: dropped when it succeeded, after letting go of the refs of a fenced one, kept when it failed |
| `LeaseManagers.LeaseManager.RetryPendingReleases` | pkg/claim/lease_manager_tick.go:124-157 | exactly the claims pending release are retried: dropped when both refs are gone, kept when a release failed |
| `LeaseManagers.LeaseManager.ReleaseExpiredHolds` | pkg/claim/lease_manager_tick.go:166-186 | exactly the claims whose hold is over at the clock reading are settled by the running check |
| `LeaseManagers.LeaseManager.ReleaseJoblessClaims` | pkg/claim/lease_manager_tick.go:196-253 | every claim with nothing pending, no hold and no open check that was not checked in the last 60 s is checked unless the context is done or ten seconds have passed, none before an eligible one whose last check is strictly older, and no other claim changes |
| `LeaseManagers.LeaseManager.MustStop` | pkg/claim/lease_manager_tick.go:196-203 | the jobless pass goes on only by a fresh clock reading less than ten seconds after it started and while the context is not done |
| `LeaseManagers.LeaseManager.CheckJobless` | pkg/claim/lease_manager_tick.go:204-228 | an answer of running clears the absence, the first not-running answer starts it, 300 s of it release the claim, no answer changes nothing |
| `LeaseManagers.LeaseManager.RecheckRunning` | pkg/claim/lease_manager_tick.go:285-303 | exactly the claims adopted with an unknown Job state are asked about: confirmed when running, released when not, kept when unknown |
| `LeaseManagers.LeaseManager.ClaimLost` | pkg/claim/lease_manager_tick.go:428-437 | a lost claim is dropped after its Job was deleted, or waits for that deletion |
| `LeaseManagers.LeaseManager.RenewReadBack` | pkg/claim/lease_manager_tick.go:443-470 | after another fence, which may end the claim, a record of ours with a new token is taken over, one with the same token or no answer is a failed renewal that keeps the lease, a free key or another holder a lost claim whose Job is deleted |
| `LeaseManagers.LeaseManager.RenewPrimary` | pkg/claim/lease_manager_tick.go:374-399 | one renewal is sent: when it is answered the renewed record is remembered, lease lost loses the claim, and without an answer a fence and a fresh read decide; not renewed means that token and lease are as before; other claims change only by fence |
| `LeaseManagers.LeaseManager.RenewSecond` | pkg/claim/lease_manager_tick.go:406-423 | the new token of the second ref is remembered, a lost one loses the claim, and a failure keeps the pair's lease and asks again at the next tick |
| `LeaseManagers.LeaseManager.RenewClaim` | pkg/claim/lease_manager_tick.go:364-424 | renewals go out for the claim's own refs only; after one that counts as done or recovered the memory has taken over the server's token, and only a failure on the second ref asks for another at the next tick |
| `LeaseManagers.LeaseManager.RenewDueClaims` | pkg/claim/lease_manager_tick.go:345-358 | at the reading of its own turn a claim still renewed whose last renewal lay 60 s back or that was asked for again was sent a renewal and counts as renewed then; any other keeps its schedule and was sent none; no claim is left with a renewal 60 s back, and no claim lost lease |
| `LeaseManagers.LeaseManager.Tick` | pkg/claim/lease_manager_tick.go:39-59 | it fails exactly when the context is done; otherwise every claim not pending Job deletion has a lease ending at least 70 s after the first fence's clock reading; judged by what it was when the tick began, each claim still renewed was sent a renewal exactly when its last one lay 60 s or more before the reading of its turn or it was asked for again, and none is left 60 s back; and the pending deletions, pending releases, ended holds and open running checks of every claim still held were tried; it never adds a claim, shortens a lease or changes a hold, and every request carries a bounded deadline |
| `ClaimKeys.KeyRoundTrip` | pkg/claim/key.go:159-177 | a target survives the way to its key and back exactly when no owner or repository contains the separator |
| `ClaimKeys.TargetRoundTrip` | pkg/claim/key.go:132-154 | a key survives the way to its target and back exactly when it is not a pull request with something other than digits |
| `ClaimKeys.TargetExactly` | pkg/claim/key.go:132-154 | a key is read as a target exactly when it is the text of that task, repository or pull request and no component of the latter two contains the separator |
| `ClaimKeys.KeyExactly` | pkg/claim/key.go:159-177 | a target has a key exactly when it is one task, one repository or one pull request with digits, and the key is its text |
| `ClaimKeys.ValidExactly` | pkg/claim/key.go:228-266 | a component is accepted exactly when it is not empty, has only letters, digits, dot, underscore and hyphen, no two dots in a row, no leading dot and no trailing .lock |
| `ClaimKeys.NumberFromLineExactly` | pkg/claim/key.go:195-224 | a line yields a number exactly when it is the URL of a pull request of the repository, in any case, with one to ten digits of value at least 1 |
| `ClaimKeys.FirstLineWins` | pkg/claim/key.go:181-191 | the number is that of the first line of the body, blanks aside, that names a pull request |
| `ClaimKeys.TrimSpaceExactly` | pkg/claim/key.go:186 | a line is trimmed of exactly the Unicode white space at its two ends |
| `ClaimKeys.NumberFromBodyExactly` | pkg/claim/key.go:181-191 | a body yields a number exactly when, of its lines between line feeds, the first that is such a URL, white space aside, has it |
| `ClaimKeys.DerivedAddressesSubject` | pkg/claim/key.go:83-115 | every derivation yields one key and no second one; the key is its subject's and parses back to it, and the fallback flag marks exactly the reviews keyed by task id |
| `ClaimKeys.KeysCollideOnlyWhenMeant` | pkg/claim/key.go:46-68 | two derivations give one key exactly when both are for one case-folded repository, one pull request by number, or one task id |
| `ClaimKeys.CaseDoesNotMatter` | pkg/claim/key.go:83-115 | names that differ in ASCII case only derive the same keys, for every task type |
| `ClaimKeys.RepositoryKey` | pkg/claim/key.go:53-63 | for ASCII names, updates, releases and build fixes derive exactly claims/repo/ with the lower-case owner and repository, or fail when one of the two is invalid |
| `ClaimKeys.PullKey` | pkg/claim/key.go:95-111 | for ASCII names, a review whose body names a pull request derives exactly claims/pr/ with the lower-case owner and repository and the number, or fails when one of the names is invalid |
| `ClaimKeys.TaskKey` | pkg/claim/key.go:64-68 | any other task, and a review whose body names no pull request, derives exactly claims/task/ with its id, flagged as a fallback for a review, or fails when the id is invalid |
| `ClaimKeys.RepositoriesExclude` | pkg/claim/key.go:31-37 | two repository-keyed tasks with ASCII names share a key exactly when owner and repository are the same letters up to case |
| `ClaimKeys.PullsExclude` | pkg/claim/key.go:83-112 | two reviews that name a pull request share a key exactly when the numbers are equal and owner and repository are the same letters up to case |
| `RefStores.ParseBuild` | pkg/claim/redrive_streak_store.go:103-117 | parsing a ref the stores build gives back its task, phase, reason and number |
| `RefStores.ParseExactly` | pkg/claim/redrive_reason_store.go:85-101 | a ref parses exactly when its key is the text of the task, phase, reason and a positive number of 64 bits under the space's prefix |
| `RefStores.LiveExactly` | pkg/claim/redrive_streak_store.go:136-183 | what counts for a task at a phase is exactly the refs whose key says so and whose lease has no date or has not passed |
| `RefStores.ParsedIsUnder` | pkg/claim/redrive_refs.go:28-39 | every ref that parses as one of a task's lies under the prefix the task's own listing uses |
| `RefStores.UnderExactly` | pkg/claim/ref_client.go:49-51 | a prefix, with or without its last separator, covers exactly the path it names and what lies below it |
| `RefStores.AllHits` | pkg/claim/redrive_streak_store.go:197-231 | the listing of one task and the listing of the whole space show the same refs of that task |
| `RefStores.InOrderUnique` | pkg/claim/redrive_reason_store.go:221-228 | with distinct attempt numbers there is only one order of the reasons |
| `RefReads.RefServer.List` | pkg/claim/ref_client.go:49-51 | a listing that is answered shows each ref under a whole-component prefix once |
| `RefReads.RefServer.Create` | pkg/claim/ref_client.go:52-62 | a create is refused exactly when the key exists; a failed one may have landed |
| `RefReads.RefServer.Count` | pkg/claim/redrive_streak_store.go:154-183 | the count is the number of the task's unexpired streak refs at the phase; an invalid name and an unanswered listing are errors |
| `RefReads.RefServer.Lookup` | pkg/claim/success_store.go:186-219 | the newest unexpired success of the task at the phase, or none exactly when there is none; an invalid name and an unanswered listing are errors |
| `RefReads.RefServer.ReasonsOf` | pkg/claim/redrive_reason_store.go:143-168 | the reasons of the task at the phase by ascending attempt number; an invalid name and an unanswered listing are errors |
| `RefReads.RefServer.StreakSnapshot` | pkg/claim/redrive_streak_store.go:197-231 | for every task and phase, the count a per-task read would give |
| `RefReads.RefServer.SuccessSnapshot` | pkg/claim/success_store.go:230-260 | for every task and phase, the success a per-task read would give |
| `RefReads.RefServer.ReasonSnapshot` | pkg/claim/redrive_reason_store.go:173-205 | for every task and phase, reasons ordered as a per-task read orders them |
| `RefReads.PassRedriveCache.Count` | pkg/handler/redrive_streak_cache.go:70-90 | a pass answers as a live read would have when it first asked, an invalid name aside, which only the live read refuses; a snapshot that failed stays failed for the pass |
| `RefReads.PassRedriveCache.ReasonsFor` | pkg/handler/redrive_streak_cache.go:99-117 | the same for reasons |
| `RefReads.PassSuccessCache.Lookup` | pkg/handler/success_cache.go:54-74 | the same for successes |
| `RefWrites.NextNumber` | pkg/claim/redrive_refs.go:48-65 | one more than the highest number of the task at the phase, or 1 |
| `RefWrites.NextIsFree` | pkg/claim/redrive_refs.go:86-96 | the key under the next number is not taken |
| `RefWrites.DeleteListed` | pkg/claim/redrive_refs.go:166-182 | exactly the listed refs the deletion is after are gone; when requests fail some may stay and nothing else goes |
| `RefWrites.DeleteRefs` | pkg/claim/redrive_refs.go:139-162 | exactly the task's refs in the space, or its expired ones, are gone; when requests fail some may stay and nothing else goes |
| `RefWrites.RecordRef` | pkg/claim/redrive_refs.go:70-135 | one ref is added under the next number and the task's other phases are gone; a refused create is tried three times; whatever fails, at most that ref is added, only refs of other phases go, and success means the ref is there |
| `Redrive.CountIsStreak` | pkg/claim/redrive_streak_store.go:136-183 | the count is the number of failures inside the window since the last reset or phase change |
| `Redrive.ReasonsOfRun` | pkg/claim/redrive_reason_store.go:105-168 | the reasons are those of the recorded failures in the order they happened |
| `Redrive.EvidenceMatchesCount` | pkg/result_publisher.go:380-460 | for every history the last Count entries of Reasons are exactly, in order, the reasons of the failures inside the window |
| `RedriveLedgers.PublishedTask` | pkg/result_publisher.go:797-808 | one published failure, whatever the phase change, expiry and pruning, keeps the refs in line with the history |
| `RedriveLedgers.FailureLedger.PublishFailure` | pkg/result_publisher.go:380-460 | every published failure is recorded with its phase (none when empty) and reason (unknown when empty) and keeps the refs of every task in line with its history |
| `RedriveLedgers.FailureLedger.ClearStreak` | pkg/handler/task_event_handler_redrive.go:435-461 | clearing a finished task resets its streak and leaves all others in line |
| `RedriveCap.BrokenExactly` | pkg/handler/task_event_handler_redrive.go:305-343 | a record is closed as broken exactly when the window holds at least three reasons and all are one broken value |
| `RedriveCap.SpawnExactly` | pkg/handler/task_event_handler_redrive.go:217-245 | a spawn is let through exactly below three failures, or below six while the most recent reasons hold one other than unknown and are not three or more of one broken value; from six on the latter close the record as transient, all of one broken value from three on as broken, and no known reason refuses without closing |
| `RedriveCap.DecisionFollowsHistory` | pkg/handler/task_event_handler_redrive.go:191-247 | the cap's decision from the store is the one the failures inside the window call for, which SpawnExactly and CapBitesExactly spell out |
| `RedriveCap.CheckCap` | pkg/handler/task_event_handler_redrive.go:191-247 | the check decides on the store's count, or on the floor in memory when the store cannot be read, and on the store's reasons, or none when they cannot be read |
| `RedriveCap.CheckCapOf` | pkg/handler/task_event_handler_redrive.go:349-380 | while the store can be read the check decides as the history does |
| `RedriveCap.RedriveFloor.Count` | pkg/handler/task_event_handler_redrive.go:133-144 | the floor is the length of the run of spawns at the phase with no gap of a whole window, until a window after the last one |
| `RedriveCap.RedriveFloor.RecordSpawn` | pkg/handler/task_event_handler_redrive.go:408-429 | a spawn extends the run; a new phase or an expired window starts again at one, and no other task changes |
| `RedriveCap.RedriveFloor.Clear` | pkg/handler/task_event_handler_redrive.go:435-438 | clearing a finished task forgets its spawns and no others |
| `RedriveCap.FloorNeverWeaker` | pkg/handler/task_event_handler_redrive.go:114-128 | the floor never counts less than the unbroken spawns at the phase inside the window |
| `RedriveCap.CapBitesExactly` | pkg/handler/task_event_handler_redrive.go:217-231 | the decision is to spawn exactly when the last three events are not all failures at the phase within six hours, or the last six are not and the streak has a known reason and is not all one broken value; so a spawn is refused whatever the reasons exactly when the last six are |
| `RedriveCap.RateBound` | pkg/handler/task_event_handler_redrive.go:19-27 | an unbroken streak has at most six failures in any span of six hours |
| `RedriveCap.HoppingIsUnbounded` | pkg/claim/redrive_refs.go:166-182 | for every n there is an admitted history with n failures of one phase at one instant |
| `SuccessRace.RunKeepsInv` | pkg/claim/success_store.go:283-308 | in every interleaving what was put is still there unless a later success of the task was put |
| `SuccessRace.NewestSurvives` | pkg/claim/success_store.go:145-183 | the newest completion ever put for a task is always present |
| `SuccessRace.LookupSeesNewest` | pkg/claim/success_store.go:186-219 | and a lookup at its phase returns it while its lease runs |
| `SuccessRace.CleansUp` | pkg/claim/success_store.go:283-308 | in every interleaving a call with nothing left to delete has asked for the deletion of every older success of its task that its listing found, and each that landed was gone then |
| `SuccessRace.RecordRunsThrough` | pkg/claim/success_store.go:145-183 | from every state a call that nothing disturbs leaves its success and no older one of its task |
| `SpawnCap.CapHolds` | pkg/handler/concurrency_admission.go:24-132 | in every interleaving the active Jobs of an assignee in a namespace stay within the maximum and the quota |
| `SpawnCap.ServedIsSuperset` | pkg/handler/job_cache.go:92-125 | whatever a lookup is answered with, live or cached, covers every active Job |
| `SpawnCap.ServedWasLive` | pkg/handler/job_cache.go:92-125 | and it was the set of active Jobs at some earlier point of the run |
| `SpawnCap.CacheIsUsed` | pkg/handler/job_cache.go:92-110 | a lookup whose pass has an entry of the assignee's present generation can be answered with exactly that entry |
| `SpawnCap.FreeSlotIsUsed` | pkg/handler/task_event_handler.go:925-945 | from every state, an attempt that finds the lock free, no active Job of its task and a slot below both bounds gets its Job created, the generation bumped and the lock freed |
| `SpawnCap.NoDoubleSpawn` | pkg/handler/task_event_handler.go:925-945 | a Job is only created for a task that has none active |
| `SpawnClaim.FreshClaimProtected` | pkg/handler/task_event_handler.go:989-1046 | a claim taken by a spawn is held until its Job is stored or the spawn's own failure path begins, unless the lease loop dropped it |
| `SpawnClaim.NoReleaseInFlight` | pkg/handler/claim_lifecycle.go:105-144 | no release call ever deletes the claim of a spawn in flight |
| `SpawnClaim.DroppedStaysDropped` | pkg/handler/claim_lifecycle.go:87-98 | a claim the lease loop dropped is never held again, and a failed spawn is no longer pending when it lets its claims go |
| `SpawnClaim.ReleaseRunsThrough` | pkg/handler/claim_lifecycle.go:105-144 | from every state with the lock free, a release call does nothing while a spawn is pending and otherwise releases every claim of the task |
| `SpawnClaim.SpawnRunsThrough` | pkg/handler/task_event_handler.go:989-1046 | from every idle state with the lock free, a spawn leaves one claim more and its Job stored, one whose Job cannot be created leaves the task without claims, and either way it is no longer pending |
| `Deferral.EvictionWins` | pkg/handler/task_event_handler_deferred.go:177-183 | a claim captured before a removal is never used after it, to park again or to pass the last check |
| `Deferral.DeferredRespawns.RemoveEntry` | pkg/handler/task_event_handler_deferred.go:177-183 | a removal invalidates every claim of that task and no other, with or without an entry |
| `Deferral.DeferredRespawns.Capture` | pkg/handler/task_event_handler.go:1583-1595 | a reconcile candidate's claim carries the number of removals so far, and stands until the next one |
| `Deferral.DeferredRespawns.Collect` | pkg/handler/task_event_handler_deferred.go:76-90 | exactly the due entries are taken out, each with the claim of that moment |
| `Deferral.DeferredRespawns.ParkAtCap` | pkg/handler/concurrency_admission.go:104-130 | an evicted claim parks nothing and a claimed replay never overwrites a parked entry |
| `Deferral.DeferredRespawns.ParkForGrace` | pkg/handler/task_event_handler_deferred.go:251-269 | an evicted claim parks nothing |
| `Deferral.DeferredRespawns.StillValid` | pkg/handler/task_event_handler_spawn_refusals.go:34-42 | the last check passes exactly the claims no removal has invalidated |
| `Deferral.DeferredRespawns.ClearStampIfNotParked` | pkg/handler/task_event_handler_deferred.go:196-202 | a queue stamp goes exactly when its task is not parked |
| `Dedupe.TtlDedupe.PresentExactly` | pkg/result_publisher.go:232-241 | a key is present exactly when fewer than capacity insertions followed its latest one; a refresh does not reorder |
| `Dedupe.TtlDedupe.Check` | pkg/result_publisher.go:255-263 | a key counts as seen exactly until one hour after it was last recorded, unless capacity insertions have followed its own |
| `Dedupe.TtlDedupe.Record` | pkg/result_publisher.go:267-282 | the order stays duplicate-free, within capacity and the end of all insertions, a refresh changes only the time, and the time of the record is remembered whatever is evicted |
| `Dedupe.FailureWatcher.PublishFailure` | pkg/result_publisher.go:730-811 | both messages are sent exactly when the key is not seen at the check and neither send fails, and the entry is recorded only then |
| `Dedupe.FailureWatcher.PublishOther` | pkg/result_publisher.go:813-834 | clearing a Job's name, refusing a trigger or aborting a record through the same dedupe sends no increment and keeps the at-most-once guarantee, even when it records a Job's own name |
| `Dedupe.FailureWatcher.DeliverStoreMiss` | pkg/job_watcher.go:693-764 | a re-delivered failure is published exactly when it happened after the watcher started and less than 1800 s ago, its task is known to be inactive, its Job is not seen at the check and neither send fails; over any sequence of deliveries, beside any other publisher, at most one increment is sent for a Job this way, and none after one sent by any path, unless its entry was pushed out by capacity insertions or its failure time, plus the longest wait inside one of its deliveries, lies ahead of its first send by more than 1800 s |

## Left out

- HTTP, JSON, authentication and the transport of the claim, ref and index clients: only their contracts are modelled.
- Kubernetes informers, pod logs, Kafka, metrics, logging and the audit of held claims against running Jobs.
- Lease tokens are opaque to the program; the model identifies a token by a serial number, its key and its holder.
- LeaseExclusion.ExclusionHolds: speaks of single-ref claims, because the second ref of a pair is acquired without a grace check; derivation never produces a pair.
- LeaseManagers.LeaseManager.ClaimPair: with a pair of equal keys the second request is taken to reach the server while the first grant's lease is running.
- LeaseManagers.LeaseManager.Recover: starts from an empty held set, as the program calls it once at startup (pkg/claim/recover_startup.go:38-60); run later it would overwrite the flags of held claims. A listed key that is no claim address keeps its key here, where the program falls back to an empty target that every call refuses; the order of groups and of keys within a phase is left open.
- The claimant id a repository claim must carry and a task claim must not: a refusal on either side is one more failed request.
- RefWrites.DeleteListed: the hashes of compare-and-swap deletes, which matter only beside another writer.
- RefWrites.RecordRef: another writer between the listing and the create, beyond the retry of a refused create.
- RedriveLedgers.FailureLedger.PublishFailure: one writer at a time, a store that answers, and fewer than 2^63 failures; concurrent writers can give two reasons one number.
- RedriveLedgers.FailureLedger.ClearStreak: the same.
- ClaimKeys.CaseDoesNotMatter: letters outside ASCII fold as the Unicode tables say, which the model leaves open.
- RedriveCap.RateBound: spawns of one task id follow one another and read the store live; a pass may decide from a snapshot that is older.
- SpawnCap.CapHolds: the limits do not change during a run, one process creates all Jobs, a failed create creates nothing, and generations do not wrap around.
- SpawnClaim.FreshClaimProtected: the spawns of one task id are serialized by its assignee's lock, as long as its assignee does not change.
- The order in which due deferred entries are replayed, the seeding after a restart and the queue stamps beyond their removal.
- Dedupe.FailureWatcher.DeliverStoreMiss: deliveries come one after another, and a message that was delivered although its send reported an error counts as not sent.
- The trigger budget, vault filters, the scheme guard, zombie classification and log redaction.
