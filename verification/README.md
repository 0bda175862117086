# ForgePanel control plane, modelled and proved

A Dafny 4.11 model of the logic ForgePanel's panel and its node agents share: the
heartbeat protocol, the state machines that keep running cores in step with the
database, and the tables and arithmetic under them. `dafny verify dfyconfig.toml`
checks all of it.

Code that updates state in place is a class or a method with a loop, proved against a
function of the old state; what the code is for is then proved about those functions,
over every run. Where a promise in the repository's own comments turned out false of
the code, the model keeps the code, a lemma gives an input that breaks the promise, and
an "iff" lemma says exactly when it holds.

| files | what they model |
|---|---|
| `LogBuffer`, `NodeLogs`, `LogShipping`, `LogCores`, `LogWatchers` | log lines from a core's buffer through a lossy heartbeat to the panel and its watchers |
| `NodeCounters`, `NodeTraffic`, `TrafficRuns` | collecting two cores' counters, and billing from running totals with baselines, retries and restarts |
| `NodeCertificates`, `NodeIdentity` | both halves of a node's client certificate: enrol, bootstrap, renew, revoke |
| `ConfigApply` | validate, commit, hot-apply or restart on the node |
| `NodeRouting` | the routing table narrowed to one node |
| `PaasPaths` | many inbounds behind one HTTP port |
| `AuditDiff` | what an audit entry says and does not say |
| `AccessAgreement` | who is served against what is offered |
| `IpKeys`, `LoginLimiter`, `LimiterRuns`, `LoginGuard` | the bounded login limiter and the two-key guard over it |
| `HopSpec`, `PortGuard` | port claims, conflicts and advice, against the ports really used |
| `ProfileSync` | one profile reconciled onto many inbounds |
| `OperationIds`, `Numerals` | unique operation ids |
| `NtpClock` | NTP timestamps and the SNTP offset (RFC 4330, sections 3 and 5) |
| `InboundModel` | protocols, transports, and the sockets a core opens for them |

## Where a comment says more than the code does

- A log subscription's backlog is said to be everything held; it is the newest twenty lines (`HeldLineIsShownIff`, `OneLineTooMany`).
- Re-sending a log batch is said to be free; with two cores it can repeat one line and lose another (`SeveralCoresResend`, `TwoCoresRepeatALine`).
- Traffic counters of two cores are summed under one key; where they are, one core's restart or failed query can bill the other's bytes again (`SummedReportOverchargesIff`, `OneOfTwoCoresRestarting`, `AQueryFailingOnce`).
- A node's sing-box traffic is said to be metered and summed with Xray's; its counters keep raw names that name no user, so none of it is billed (`SingboxTrafficIsNeverBilled`, `TheSameNameTwoKeys`).
- The limiter's table is said to be bounded; the empty key defeats the eviction (`FailureFitsIff`, `EmptyKeyOverflows`).
- A success is said to clear the username; a name that reads as host and port stays counted (`SuccessClearsIff`, `OneBadOneGood`).
- A node's routing is narrowed by exact tag; groups are read by prefix (`GroupBalancesAsBeforeIff`, `PrefixMemberLosesAnExit`).
- A core's failure text is said to be empty once it accepts a config; sending the good config again after a bad one leaves it, and a core's death is never noticed (`VerdictIsTrueIff`, `AServingCoreIsBlamed`, `ADeadCoreIsNotMissed`).
- One bad profile binding is said to fail the whole sync; the earlier ones are already changed (`FailedSyncChangesNothingIff`, `AFailedSyncIsHalfDone`).
- A renewal ignores a failed row write, and a revocation a failed list write (`RenewIsSafeIff`, `AnUnrecordedCertificate`, `RenewalSurvivesRestartIff`, `AReplacedCertificateComesBack`).
- Renewal rides on the heartbeat so that a node long away renews when it returns; over thirty days away, one lost answer, or half an hour's delay at the start locks a node out for good (`LockedOutIffLostOrLate`, `LosingTheAnswer`, `AwayTooLong`, `TooLateToStart`).
- "Port N is free" does not hold for an inbound whose hop range is the conflict (`AdviceIsSoundIff`, `AdviceCanBeRefused`).
- The port guard is said to expand an inbound into every port it binds; AmneziaWG is claimed for TCP and uses UDP, ShadowTLS's inner listener is not claimed, and a hop text is read differently from the firewall (`ClaimsAreBindsIff`, `SharedPortsAreUnclaimedIff`, `TwoTunnelsOnOnePort`, `AnInnerListenerIsNotSeen`, `ADownwardRangeReservesForNothing`).
- Loopback ports are said never to collide with a routed one (`LoopbackPortsAreTheirOwnIff`, `TwoInboundsOnOnePort`, `AnInnerPortOnTheBase`).
- Secrets are said never to be written; an object under a secret key, or an array, is (`HiddenIffItsOwnKeyIsSecret`, `AnObjectUnderASecretKeyShows`, `ArrayIsHiddenIff`, `AnArrayShows`).
- What a subscription offers is said to be what the cores serve; a user over quota or held is offered all of it (`OfferIsUsableIff`, `OverQuotaIsStillOffered`).
- A user is said to connect with their own credential; half a credential is filled up from the inbound's and served as neither, and a name the inbound's login has is served with its password only (`HandedCredentialIsServedIff`, `HalfAndHalf`, `ALoginNobodyHas`, `ANameTaken`).

## Model

| member | source | states |
|---|---|---|
| `LogBuffer.LogRing.Add` | internal/core/supervisor/supervisor.go:648-657 | A line added to the buffer is added to everything ever written, and the newest `size` lines stay readable by position even though they overwrite in place. |
| `LogBuffer.LogRing.Since` | internal/core/supervisor/supervisor.go:667-688 | A reader gets every line from its position on, and the total; one behind the window, or ahead of everything, gets all that is held. |
| `LogBuffer.LogRing.SnapshotN` | internal/core/supervisor/supervisor.go:697-720 | The newest k lines still held, oldest first, however often the buffer has wrapped. |
| `LogBuffer.SlotIsRemainder` | internal/core/supervisor/supervisor.go:654 | The slot a position is kept in is its remainder by the size. |
| `LogBuffer.SlotsDiffer` | internal/core/supervisor/supervisor.go:654 | Two positions less than the size apart never share a slot. |
| `NodeLogs.NodeLogHub.Publish` | internal/api/nodelogs.go:95-154 | Publishing files exactly the new lines of a batch, offers those and only those to every watcher of that node, and touches no other node. |
| `NodeLogs.NodeLogHub.Expect` | internal/api/nodelogs.go:95-140 | Which lines of a batch are new: an oversized batch loses its oldest lines, another agent process starts from zero, and what was filed before is cut off. |
| `NodeLogs.NodeLogHub.Subscribe` | internal/api/nodelogs.go:158-183 | A watcher is registered and handed the newest twenty lines filed; what is filed does not change. |
| `NodeLogs.NodeLogHub.Unsubscribe` | internal/api/nodelogs.go:172-182 | Only that watcher is dropped. |
| `NodeLogs.NodeLogHub.Forget` | internal/api/nodelogs.go:186-195 | A deleted node's buffer, sequence and process are gone; the others keep theirs. |
| `NodeLogs.JudgedOverlap` | internal/api/nodelogs.go:110-135 | A batch overlapping what is filed by k lines files the rest. |
| `NodeLogs.RefilingIsIdempotent` | internal/api/nodelogs.go:95-140 | A heartbeat delivered twice files nothing the second time. |
| `NodeLogs.ResendIsExactIffExtension` | internal/api/nodelogs.go:95-140 | A batch re-sent and grown leaves the panel with the grown batch exactly when it extends the first as a prefix. |
| `NodeLogs.BacklogIsEverythingHeldIff` | internal/api/nodelogs.go:156-170 | The backlog is everything the buffer holds, as its comment says, exactly while at most twenty lines were filed. |
| `LogShipping.NodeAgent.CollectLogs` | cmd/forgenode/main.go:95-134 | A batch is the newest two hundred unaccepted lines of all cores in name order; nothing is committed by collecting it. |
| `LogShipping.NodeAgent.Accept` | cmd/forgenode/main.go:123-134 | After a heartbeat that succeeded every cursor moves to what was collected and the sequence by what was shipped. |
| `LogShipping.AtMostOnceInOrder` | cmd/forgenode/main.go:95-134 | Over every run of output, lost requests, lost responses, panel and agent restarts, the lines filed since the panel's boot are lines the core wrote, strictly increasing in process and position. |
| `LogShipping.NewProcessIsFiledWhole` | internal/api/nodelogs.go:112-122 | After any run, a restarted agent's first delivered batch is filed whole. |
| `LogShipping.ContiguousWhileUnhurried` | cmd/forgenode/main.go:95-134 | While no unaccepted backlog exceeds one batch, the filed lines are one contiguous run, and reach the newest line right after a delivered heartbeat. |
| `LogShipping.ExactlyOnceWhileUnhurried` | cmd/forgenode/main.go:95-134 | With the panel up from the start and such a backlog, a delivered heartbeat leaves the panel holding every line once, in order. |
| `LogShipping.ResentBatchExtendsIff` | cmd/forgenode/main.go:105-119 | With several cores a re-sent batch extends the first exactly when a core that wrote more is followed by none with unaccepted lines. |
| `LogShipping.SeveralCoresResend` | cmd/forgenode/main.go:105-119 | The panel's file after a lost response and a re-send is what the cores said exactly under that condition. |
| `LogShipping.TwoCoresRepeatALine` | cmd/forgenode/main.go:105-119 | Two cores and one lost response: one line is filed twice and another never. |
| `LogCores.RunRefines` | cmd/forgenode/main.go:95-134 | Over every run of any number of cores in which a core writes only when none after it has unaccepted lines, the node behaves as one with one core. |
| `LogCores.SeveralCoresAtMostOnce` | cmd/forgenode/main.go:95-134 | So over every such run, whatever is lost or restarted, the lines filed are lines the cores wrote, at most once and in order. |
| `LogWatchers.EveryLineHasOneFate` | internal/api/nodelogs.go:107-183 | With publishing split into its locked and unlocked steps, over every interleaving: each line filed during a subscription is exactly one of sent live once, dropped on a full queue, or still to be sent, and no past line comes live. |
| `LogWatchers.DrainedWatcherReadAll` | internal/api/nodelogs.go:136-154 | A watcher that was sent everything and dropped nothing has read each line of its subscription exactly once and nothing else. |
| `LogWatchers.HeldLineIsShownIff` | internal/api/nodelogs.go:156-183 | Of the lines held when a watcher subscribed exactly the newest twenty are in its backlog; an older held line reaches it by no way. |
| `IpKeys.ClearedKeyIsCountedKeyIff` | internal/api/ratelimit.go:61-77 | The key a username is cleared under is the one it was counted under exactly when the name does not read as host and port. |
| `LoginLimiter.Limiter.Allowed` | internal/api/ratelimit.go:79-93 | An address check sweeps when due, refreshes the entry and refuses while locked. |
| `LoginLimiter.Limiter.Fail` | internal/api/ratelimit.go:96-116 | A failed address is counted and locked by its backoff, after room was made. |
| `LoginLimiter.Limiter.AllowedKey` | internal/api/ratelimit.go:197-217 | A username is refused only past its budget and while locked. |
| `LoginLimiter.Limiter.FailKey` | internal/api/ratelimit.go:221-235 | A failed username is counted and held for a flat minute. |
| `LoginLimiter.Limiter.Success` | internal/api/ratelimit.go:118-122 | Success removes the entry under the normalised key and nothing else. |
| `LoginLimiter.Limiter.MaybeSweep` | internal/api/ratelimit.go:127-141 | Once an interval, exactly the expired entries go. |
| `LoginLimiter.Limiter.EvictIfFull` | internal/api/ratelimit.go:144-170 | At capacity the expired go first, then one entry least recently seen. |
| `LoginLimiter.BackoffIsBoundedAndGrows` | internal/api/ratelimit.go:103-114 | A lock never shortens with more failures and never exceeds 320 seconds. |
| `LimiterRuns.FailureFitsIff` | internal/api/ratelimit.go:144-170 | Recording a new key keeps within capacity exactly when no victim was needed or the victim is not the empty key. |
| `LimiterRuns.EmptyKeyOverflows` | internal/api/ratelimit.go:158-169 | The empty key seen least recently: nothing is evicted and the table outgrows its limit. |
| `LimiterRuns.NeverOutgrows` | internal/api/ratelimit.go:15-18 | Over every run with non-empty keys the table never exceeds its capacity. |
| `LimiterRuns.StaleEntriesAreGone` | internal/api/ratelimit.go:127-141 | After any sweeping call an entry idle for the time to live plus one interval is gone. |
| `LimiterRuns.LockInForceIsKeptIff` | internal/api/ratelimit.go:127-170 | A lock in force is lost, success apart, exactly when its entry is the least recently seen of a full table with nothing expired. |
| `LimiterRuns.NeverStricter` | internal/api/ratelimit.go:79-93 | Whatever was swept or evicted, the bounded limiter never refuses what the unbounded one lets through. |
| `LimiterRuns.AgreesOnKeysThatStay` | internal/api/ratelimit.go:79-141 | For one key that no scan settles on and whose own visits are less than the time to live apart, whatever happens to the others, the two limiters give the same answers and hold the same entry. |
| `LoginGuard.Guard.LoginAllowed` | internal/api/loginguard.go:55-66 | The address is asked first and the username only if it passes; both refresh what they read. |
| `LoginGuard.Guard.LoginFailed` | internal/api/loginguard.go:76-97 | A failure counts against the address and, when named, the username. |
| `LoginGuard.Guard.LoginSucceeded` | internal/api/loginguard.go:103-111 | A success clears the address and what the username's key normalises to. |
| `LoginGuard.WindowBound` | internal/api/loginguard.go:17-43 | In any window of T seconds at most 50 failures, 50 more for each time the username is cleared or pushed out, and T/60 are counted against it, whoever makes them and whatever came before. |
| `LoginGuard.AllowedAgainAfterLockout` | internal/api/loginguard.go:30-43 | Blocked attempts never lengthen a lock: a username is let in again one minute after its last counted failure. |
| `LoginGuard.SuccessClearsIff` | internal/api/loginguard.go:99-111 | Success ends a username's lock exactly when the name does not read as host and port. |
| `LoginGuard.OneBadOneGood` | internal/api/loginguard.go:76-111 | From an empty table, a wrong password and then the right one leave the failure counted exactly when the name reads as host and port. |
| `LoginGuard.ANameWithAColon` | internal/api/setup.go:79-83 | A name an administrator may have reads so. |
| `NodeTraffic.UserKeyRoundTrip` | internal/store/counterkey.go:20-44 | The key stamped into a node's config reads back as its user. |
| `NodeTraffic.Ledger.AccountNodeTraffic` | internal/api/nodes.go:825-925 | One report settles each counter against its own baseline, whatever order they are visited in and whichever transactions fail; unreadable baselines settle nothing; the result says whether a user became limited. |
| `NodeTraffic.AfterOne` | internal/api/nodes.go:850-915 | One more counter changes its own baseline and its own user's usage, and nothing else. |
| `NodeTraffic.TripsAccumulate` | internal/api/nodes.go:895-925 | A report trips a user exactly when some counter of it did. |
| `TrafficRuns.RetryRecoversExactly` | internal/api/nodes.go:825-925 | A report sent again after any transactions failed leaves the books as if all had succeeded at once. |
| `TrafficRuns.RepeatIsFree` | internal/api/nodes.go:825-925 | A repeated heartbeat bills nothing. |
| `TrafficRuns.OthersUntouched` | internal/api/nodes.go:860-915 | Other nodes' baselines and users no counter names are untouched. |
| `TrafficRuns.NeverOvercharges` | internal/api/nodes.go:825-925 | For a counter that grows or restarts at zero, over every interleaving: billed is at most served since first contact, and without a restart exactly last total less first baseline. |
| `TrafficRuns.DeliverySettlesTheAccount` | internal/api/nodes.go:825-925 | Without a restart one heartbeat that gets through settles the account to the byte. |
| `TrafficRuns.SummedReportOverchargesIff` | cmd/forgenode/main.go:544-562 | Where several counters are summed under one key, a report overcharges exactly when the sum fell and what the continuing ones held before outweighs what the reading misses, or it did not fall and what re-appears outweighs what is missed and what went; by just that much. |
| `TrafficRuns.PooledBillIsServiceAndSlips` | cmd/forgenode/main.go:544-562 | Over every run of traffic, restarts of any counter, failed queries, and lost or failing reports: the bill is what was served at the last accounting and what those slips add up to, so it exceeds it exactly when they do not cancel out. |
| `TrafficRuns.SteadyPoolNeverOvercharges` | cmd/forgenode/main.go:614-638 | Counters that restart together and are all listed whenever they have counted anything, as the two directions of one core are, never overcharge. |
| `TrafficRuns.OneOfTwoCoresRestarting` | cmd/forgenode/main.go:552-557 | One of two cores restarts, nothing is served, and a hundred bytes are billed again. |
| `TrafficRuns.AQueryFailingOnce` | cmd/forgenode/main.go:579-590 | One query fails once and nothing is served: a hundred bytes are billed when the sum falls and a hundred when it comes back. |
| `NodeCounters.CollectXrayTraffic` | cmd/forgenode/main.go:614-638 | Xray's positive counters are totalled under the user part of their four-part names, and nothing else is. |
| `NodeCounters.CollectTraffic` | cmd/forgenode/main.go:544-562 | The two cores' counters are added name by name. |
| `NodeCounters.XrayCounterFindsItsUser` | cmd/forgenode/main.go:617-637 | What Xray counts for a user is totalled under that user's key and reads back as that user. |
| `NodeCounters.SingboxTrafficIsNeverBilled` | cmd/forgenode/main.go:538-590 | A sing-box counter keeps its raw name, so it never meets Xray's, and every user's books after a report are as if sing-box had reported nothing. |
| `NodeCounters.TheSameNameTwoKeys` | internal/core/singboxapi/singboxapi.go:246-275 | For any user and direction the one name ends under two keys, of which sing-box's names nobody. |
| `NodeRouting.NodeRoutingSpecs` | internal/api/nodes.go:407-463 | The shipped table is the full one narrowed to the node's inbound tags, with the groups and outbounds its rules refer to. |
| `NodeRouting.NarrowRules` | internal/api/nodes.go:429-450 | A scoped rule keeps only local tags and is dropped without any; an unscoped one always goes. |
| `NodeRouting.KeepReferencedGroups` | internal/api/nodes.go:465-485 | Exactly the groups a rule targets, in order. |
| `NodeRouting.KeepReferencedOutbounds` | internal/api/nodes.go:497-527 | Exactly the outbounds a rule targets or a kept group lists or falls back to, in order. |
| `NodeRouting.NarrowingKeepsFirstMatch` | internal/api/nodes.go:429-450 | For every connection arriving on the node, first match over the narrowed rules picks what it picks over all. |
| `NodeRouting.TargetResolvesAsBefore` | internal/api/nodes.go:451-527 | Every tag a kept rule targets leads to the same group, members, fallback and outbounds. |
| `NodeRouting.NodeRoutesAsThePanelWould` | internal/api/nodes.go:396-463 | Every connection arriving on the node leaves by the same exit as under the full table. |
| `NodeRouting.OutboundIsShippedIff` | internal/api/nodes.go:487-527 | An outbound is shipped exactly when a surviving rule names it or a targeted group refers to it. |
| `NodeRouting.NoForeignInboundNames` | internal/api/nodes.go:444-449 | No shipped rule names an inbound of another machine. |
| `NodeRouting.GroupBalancesAsBeforeIff` | internal/core/engine/routing.go:69-72 | As the core reads members by prefix, a group keeps its exits exactly when every outbound so selected is one the narrowing keeps by name. |
| `NodeRouting.PrefixMemberLosesAnExit` | internal/core/engine/routing.go:69-72 | A member that is a proper prefix of a longer tag loses that exit on the node. |
| `ConfigApply.TempPathIsASibling` | cmd/forgenode/engines.go:293-322 | The temporary file is another file of the same directory. |
| `ConfigApply.TempPathKeepsTheExtension` | cmd/forgenode/engines.go:293-322 | The temporary file has the config's extension, from which the core tells the format. |
| `ConfigApply.EngineProc.Apply` | cmd/forgenode/engines.go:147-259 | The whole effect of a config on the core's record, process and files, for every outcome of write, check, rename, hot apply and start. |
| `ConfigApply.EngineProc.Launch` | cmd/forgenode/engines.go:194-258 | After the commit: a live core that took the change keeps running, else the core is restarted from the file. |
| `ConfigApply.ApplyConfigs` | cmd/forgenode/main.go:304-311 | Every core ends as if it were alone, and sound. |
| `ConfigApply.ApplyKeepsSound` | cmd/forgenode/engines.go:147-259 | The file is the last accepted config, a supervised core was given exactly it, and a core that should be there and is not has left a failure. |
| `ConfigApply.EveryRunIsTransactional` | cmd/forgenode/engines.go:147-259 | That holds over every sequence of configs, outcomes, core deaths and agent restarts; and a config in force passed the core's own check whenever there is a core. |
| `ConfigApply.RefusalChangesNothing` | cmd/forgenode/engines.go:160-183 | A config refused before the commit leaves process, config, uptime and every other file unchanged, and says why. |
| `ConfigApply.RestartedUnlessReached` | cmd/forgenode/engines.go:187-206 | A new config restarts the core exactly when the change could not reach it as it ran. |
| `ConfigApply.SilenceMeansServed` | cmd/forgenode/engines.go:94-99 | When the node reports no failure, the core for the config it was asked for is supervised, and that config is served exactly unless a dead core was kept. |
| `ConfigApply.VerdictIsTrueIff` | cmd/forgenode/engines.go:94-99 | The node's verdict on itself, clear or not, agrees with a live core serving what was asked exactly when no death goes unseen and no old failure is kept beside a living core or after an empty config. |
| `ConfigApply.VerdictIsClearIff` | cmd/forgenode/engines.go:94-99 | A node whose core is in place reports no failure exactly when a new non-empty config was taken or there was none to report. |
| `ConfigApply.AServingCoreIsBlamed` | cmd/forgenode/engines.go:148-150 | The good config sent again after a rejected one is served and the rejection still reported. |
| `ConfigApply.ADeadCoreIsNotMissed` | cmd/forgenode/engines.go:148-150 | A core takes a config and dies; asked for the same again, on a host where every step works, nothing is served and nothing is reported. |
| `ConfigApply.HealthyApplyServesIff` | cmd/forgenode/engines.go:148-150 | Where every step works the asked config is served, by a live core, unless a dead core is kept or it is the very one whose core could not be started. |
| `ConfigApply.DownUntilTheConfigChanges` | cmd/forgenode/engines.go:148-150 | A core that is down stays so for as long as the same config is asked for. |
| `ConfigApply.AFileExactlyWhileServing` | cmd/forgenode/engines.go:153-158 | From a disk without the file, in one life of the agent, the file exists exactly while a config is in force. |
| `ConfigApply.AppliesCommute` | cmd/forgenode/main.go:306-311 | The order in which a node's cores are visited does not matter. |
| `ConfigApply.TheNodesPathsAreApart` | cmd/forgenode/engines.go:51-74 | The two cores' files and temporary files never meet. |
| `ProfileSync.Database.Sync` | internal/api/profiles.go:265-317 | The loop over bindings, stopping at the first that cannot be made, with the number applied. |
| `ProfileSync.SyncReconciles` | internal/api/profiles.go:237-317 | A successful sync leaves each enabled binding owning one row of its own equal to its template, the others none, rows updated in place, and every other row as it was. |
| `ProfileSync.SecondSyncIsFree` | internal/api/profiles.go:237-317 | Syncing again changes nothing. |
| `ProfileSync.AnyIdsWillDoIff` | internal/api/profiles.go:303-315 | Whatever ids the database hands out each binding ends with a row of its own, exactly when no binding names a deleted row while an earlier one needs a new row. |
| `ProfileSync.StaleClaimCanBeTakenOver` | internal/api/profiles.go:291-315 | Otherwise a database that reuses ids gives one binding's new row to another. |
| `ProfileSync.FailedSyncChangesNothingIff` | internal/api/profiles.go:283-289 | A refused sync leaves the store as it was exactly when there was nothing to do before the bad binding. |
| `ProfileSync.AFailedSyncIsHalfDone` | internal/api/profiles.go:283-289 | Two bindings, the second bad: the first already carries the new definition. |
| `ProfileSync.EveryRunStaysTidy` | internal/api/profiles.go:157-235 | Through every sequence of profile changes, edits, additions and removals, failed syncs among them, bindings keep distinct live rows. |
| `ProfileSync.EveryRunReconciles` | internal/api/profiles.go:157-235 | After any such sequence a change whose templates can all be made leaves the fleet as the profile says. |
| `NodeCertificates.Server.Bootstrap` | internal/api/nodemtls.go:134-196 | A token in date and a request in order buy one certificate, and the token is spent in the same write. |
| `NodeCertificates.Server.Renew` | internal/api/nodemtls.go:200-253 | A working certificate buys the next one and the recorded one is revoked. |
| `NodeCertificates.Server.Delete` | internal/api/nodes.go:596-607 | The recorded certificate is revoked before the row goes. |
| `NodeCertificates.Server.Authenticate` | internal/api/nodemtls.go:97-121 | The certificate decides when there is one; the enrol token only when there is none and the panel allows it. |
| `NodeCertificates.CA.Revoke` | internal/nodeca/ca.go:378-392 | A revocation is in force at once and on disk when the write works. |
| `NodeCertificates.EveryRunIsSafe` | internal/api/nodemtls.go:134-264 | Over every sequence of enrolments, bootstraps, renewals, deletions and restarts: a working certificate is the one its node's row records, and no token bought two. |
| `NodeCertificates.SafeMeans` | internal/api/nodemtls.go:176-187 | A spent token buys nothing, a node has one working certificate at most, a deleted node none. |
| `NodeCertificates.RenewIsSafeIff` | internal/api/nodemtls.go:240-245 | A renewal keeps that exactly when the ignored row write worked. |
| `NodeCertificates.RenewalSurvivesRestartIff` | internal/nodeca/ca.go:390-391 | A replaced certificate stays revoked over a restart exactly when the list was written. |
| `NodeCertificates.DeletionSurvivesRestartIff` | internal/nodeca/ca.go:390-391 | So does a deleted node's. |
| `NodeCertificates.AnUnrecordedCertificate` | internal/api/nodemtls.go:240-245 | A renewal whose row is not written: a working certificate nobody has on record, and deleting the node revokes another. |
| `NodeCertificates.AReplacedCertificateComesBack` | internal/nodeca/ca.go:390-391 | The list is not written: after a restart the replaced certificate and its replacement both work. |
| `NodeCertificates.ADeletedNodesCertificateComesBack` | internal/nodeca/ca.go:390-391 | Nor does a deleted node's stay revoked. |
| `NodeIdentity.Agent.Bootstrap` | cmd/forgenode/identity.go:129-149 | The agent spends its token only without a certificate in date, and keeps what it manages to store. |
| `NodeIdentity.Agent.RenewIfNeeded` | cmd/forgenode/identity.go:157-183 | It renews from ten days before expiry, over the certificate it holds. |
| `NodeIdentity.LockedOutIffLostOrLate` | cmd/forgenode/identity.go:129-183 | Over every run from enrolment and at every moment after it: no certificate and no request is granted to the agent exactly when an answer that carried one was lost, or the clock passed the last certificate issued, or, before the first, the token's time; but for an agent whose connection shows no certificate to a panel that takes enrol tokens. |
| `NodeIdentity.LockedOutForGood` | cmd/forgenode/identity.go:129-183 | Locked out stays locked out, whatever the agent does and whatever happens to the others, exactly unless it is started anew without a certificate and the panel takes its enrol token. |
| `NodeIdentity.WhereARunLeads` | cmd/forgenode/identity.go:129-183 | After a lost answer the token is spent and what is held is revoked; before one the agent holds what it was last issued, or waits with its token. |
| `NodeIdentity.LosingTheAnswer` | cmd/forgenode/identity.go:129-149 | The answer to the bootstrap is lost: out at once on a strict panel. |
| `NodeIdentity.AwayTooLong` | cmd/forgenode/identity.go:157-165 | Away for over thirty days: out. |
| `NodeIdentity.TooLateToStart` | internal/api/nodemtls.go:150-165 | First started half an hour after enrolment: out. |
| `NodeIdentity.AHalfStoredRenewal` | cmd/forgenode/main.go:461-492 | The key of a renewal is stored and the certificate not: the open connection shows the revoked one and is refused by any panel, until the agent starts anew. |
| `NodeIdentity.StrandedStep` | internal/api/nodemtls.go:200-211 | A spent token and a revoked certificate stay so, whatever happens. |
| `NodeIdentity.WhoGetsIn` | internal/api/nodemtls.go:92-107 | A revoked certificate is refused even while the enrol token is good; one in step is let in until it expires. |
| `HopSpec.HopRanges` | internal/api/portcheck.go:66-91 | A hop text read entry by entry, malformed ones skipped. |
| `HopSpec.ListIsItsEntries` | internal/api/portcheck.go:62-72 | A list reserves what its parts reserve, and a bad entry costs the others nothing. |
| `HopSpec.WrittenRangeIsRead` | internal/api/portcheck.go:73-88 | A written range is reserved as written, either way round. |
| `HopSpec.ParseHops` | internal/core/porthop/porthop.go:29-69 | The firewall's reading of the same text: blank entries skipped, and any that is malformed, reversed or out of range fails the whole. |
| `HopSpec.AcceptedIsReserved` | internal/core/porthop/porthop.go:29-69 | A text the firewall takes is redirected as the guard reserves it, surrounding space or not; one it refuses is redirected nowhere. |
| `HopSpec.DownwardsIsRefused` | internal/core/porthop/porthop.go:60-62 | A range written downwards is reserved by the guard and refused by the firewall. |
| `PortGuard.OverlapsIffSharesAPort` | internal/api/portcheck.go:54-60 | Two claims overlap exactly when some port belongs to both. |
| `PortGuard.InboundClaims` | internal/api/portcheck.go:105-146 | The ranges an inbound is taken to bind. |
| `PortGuard.PortConflictFor` | internal/api/portcheck.go:198-294 | A conflict is reported exactly when a claim clashes or a foreign process listens, it names a shared port and its owner, and its advice is the lowest free port. |
| `PortGuard.SuggestPort` | internal/api/portcheck.go:382-404 | The lowest port from the start, and from 1024, free on every needed transport, or none. |
| `PortGuard.EveryRunStaysDisjoint` | internal/api/portcheck.go:413-444 | Over every sequence of guarded creates, updates and deletes, whatever else listens, no two inbounds and no inbound and the panel claim one port. |
| `PortGuard.AdviceIsSoundIff` | internal/api/portcheck.go:351-376 | The advised port is let through exactly when the hop range is in nobody's way; always, without one. |
| `PortGuard.AdviceCanBeRefused` | internal/api/portcheck.go:373-375 | A hop range over another inbound: the port called free is refused when asked for. |
| `PortGuard.ClaimsAreBindsIff` | internal/api/portcheck.go:93-146 | The claims are the ports and transports an inbound really uses, own, inner and redirected, exactly unless it is AmneziaWG, ShadowTLS, SSH, on a removed transport, XHTTP over HTTP/3 alone, or has a hop text the firewall refuses and the guard reads something beyond its own port in. |
| `PortGuard.GuardIsRightIff` | internal/api/portcheck.go:198-294 | For any two inbounds the claims clash exactly when they use a port in common, exactly where claims that are used clash, or an idle claim clashes just when an unclaimed use meets the other; so always for two that are not misread. |
| `PortGuard.UnclaimedIs` | internal/protocol/render/singbox.go:817-832 | What is used unclaimed, in full: AmneziaWG's UDP port, both sides of ShadowTLS's inner port, and the port of XHTTP over HTTP/3 alone. |
| `PortGuard.SharedPortsAreUnclaimedIff` | internal/api/portcheck.go:413-444 | Over every guarded run two inbounds come to use one port exactly when what one uses unclaimed meets what the other uses. |
| `PortGuard.TwoTunnelsOnOnePort` | internal/api/protoswitch.go:282-312 | On any port a WireGuard and an AmneziaWG inbound are created one after the other, and both bind it. |
| `PortGuard.AnInnerListenerIsNotSeen` | internal/protocol/render/singbox.go:922-942 | VLESS on the port ShadowTLS puts its inner listener on: both creates go through, in either order and with the first one's sockets open, and both use it. |
| `PortGuard.ADownwardRangeReservesForNothing` | internal/core/porthop/porthop.go:60-62 | A hop range written downwards is stored; TUIC on a port in it is refused, and nothing is shared. |
| `PortGuard.ATunnelIsRefusedForNothing` | internal/api/protoswitch.go:282-312 | An AmneziaWG inbound beside AnyTLS on one port is refused, and they share nothing. |
| `PaasPaths.PaasSpecs` | internal/api/paas.go:238-297 | Specs, routes and skips of every row, routes longest first, the first row of a path taking it. |
| `PaasPaths.TheCoreServesTheRoutedPath` | internal/api/paas.go:167-233 | The copy handed to a core answers the routed path, on loopback and without TLS, and differs from the stored one in nothing else. |
| `PaasPaths.Match` | internal/api/paas.go:314-323 | The first route covering the path at a segment boundary. |
| `PaasPaths.EveryRowEndsOnce` | internal/api/paas.go:251-292 | Every inbound ends on its own port, on a loopback port with one route, or skipped with a reason; each list keeps the rows' order. |
| `PaasPaths.LookupIsLongestPrefix` | internal/api/paas.go:246-249 | A request goes to the longest covering prefix, whatever order the routes were registered in. |
| `PaasPaths.RequestsReachTheirInbound` | internal/api/paas.go:238-323 | A request is answered by the inbound with the longest covering path, on the port its core binds. |
| `PaasPaths.OwnPathReaches` | internal/api/paas.go:314-323 | Each route answers its own path. |
| `PaasPaths.SessionsReachIff` | internal/api/paas.go:49-53 | Every path below its own reaches a route exactly when no other is registered below it. |
| `PaasPaths.ASlashTakesWhatIsBelow` | internal/api/paas.go:271-278 | Two paths differing in a closing slash both pass, and the one with it takes all below the other. |
| `PaasPaths.LoopbackPortsAreTheirOwnIff` | internal/api/paas.go:43-46 | Two inbounds handed to the cores meet on a port, one of them on loopback, exactly when a row on a routed port of its own has the number the base gives to a path-routed row and a transport in common, or a ShadowTLS row's inner port is another row's port or inner port. |
| `PaasPaths.TwoInboundsOnOnePort` | internal/api/paas.go:43-46 | A platform that routes 39001 and two rows: the cores are told to bind 39001 twice. |
| `PaasPaths.AnInnerPortOnTheBase` | internal/protocol/render/singbox.go:821-832 | ShadowTLS on a routed 19001 and a path-routed row: 39001 is bound twice. |
| `AuditDiff.WalkDiff` | internal/api/auditdiff.go:87-143 | The walk appends its lines, keys in order, to what was said before. |
| `AuditDiff.DiffJson` | internal/api/auditdiff.go:64-85 | The entry: nothing for a document that is no object, else the sorted lines, bounded. |
| `AuditDiff.LinesAreThePaths` | internal/api/auditdiff.go:101-142 | The lines are exactly what there is to say of each path. |
| `AuditDiff.SecretsDoNotShow` | internal/api/auditdiff.go:15-19 | Two pairs of documents alike but for values under secret leaf keys, changed in the one where in the other, give the same entry. |
| `AuditDiff.NothingChangedSaysNothing` | internal/api/auditdiff.go:59-60 | A document against itself gives the empty entry. |
| `AuditDiff.HiddenIffItsOwnKeyIsSecret` | internal/api/auditdiff.go:37-47 | In any two documents at any path, two values leave the same lines exactly when the key right above them is secret and both or neither are the old value, or it is not and they are written alike; the whole entry is then the same. |
| `AuditDiff.ArrayIsHiddenIff` | internal/api/auditdiff.go:165-171 | In any two documents at any path, two new arrays leave the same lines exactly when their own key is secret or they are written alike; the keys inside do not count. |
| `AuditDiff.AnObjectUnderASecretKeyShows` | internal/api/auditdiff.go:109-143 | A new object under a secret key: its value is written out. |
| `AuditDiff.AnArrayShows` | internal/api/auditdiff.go:165-171 | So is a new array, whatever keys its items have. |
| `AuditDiff.AnEmptiedValueIsNotSaid` | internal/api/auditdiff.go:109-120 | A value replaced by an empty object leaves no line. |
| `AuditDiff.HintAnywhereHides` | internal/api/auditdiff.go:37-57 | A field with a hint anywhere in its name is secret. |
| `AccessAgreement.EnabledInboundSpecs` | internal/api/engines.go:47-141 | Each enabled readable inbound with its own credential and one client for each admitted user with access. |
| `AccessAgreement.InboundsForUser` | internal/store/assignments.go:113-147 | Direct then inherited inbounds, once each. |
| `AccessAgreement.SubscriptionInbounds` | internal/api/admin.go:775-858 | The visible ones of those, for a user the subscription admits. |
| `AccessAgreement.ServedAndOffered` | internal/api/engines.go:41-46 | How often an inbound is offered and how often its clients name the user: once or never, by group, assignment or both. |
| `AccessAgreement.OfferedIsServed` | internal/api/engines.go:41-46 | For a user both sides admit the two agree on every inbound not hidden. |
| `AccessAgreement.OfferIsUsableIff` | internal/api/engines.go:44-46 | Nothing is offered that cannot be used exactly when the cores admit the user, the subscription does not, or no inbound assigned to them is in view. |
| `AccessAgreement.OverQuotaIsStillOffered` | internal/api/admin.go:783-785 | A user over quota is offered what refuses them. |
| `AccessAgreement.XrayAccounts` | internal/core/engine/multi.go:378-394 | The accounts of SOCKS and HTTP: of the clients with a name and a password, the first of each name. |
| `AccessAgreement.HandedCredentialIsServedIff` | internal/api/admin.go:864-918 | The credential handed to a user an inbound serves is one it lets in, for every protocol that is handed the user's, exactly unless TUIC is handed half of each, or SOCKS or HTTP a name without the password that goes with it or a name the inbound's own login has. |
| `AccessAgreement.HalfAndHalf` | internal/store/importapply.go:76-80 | An imported user with an id and no password is handed a TUIC credential the inbound is not served. |
| `AccessAgreement.ALoginNobodyHas` | internal/core/engine/multi.go:378-394 | The same user on a SOCKS inbound with a login of its own is handed a login no account has. |
| `AccessAgreement.ANameTaken` | internal/core/engine/multi.go:383-386 | A user named as the inbound's own login has no account there. |
| `OperationIds.IdTable.UniqueOperationID` | internal/api/openapi.go:266-278 | A new id: the name if unused, else its first unused numbering from two; the search ends. |
| `OperationIds.AssignIds` | internal/api/openapi.go:81-91 | Each name in turn gets an id fitting those before it. |
| `OperationIds.IdsAreDistinct` | internal/api/openapi.go:262-265 | No two operations share an id. |
| `OperationIds.KeepsItsNameIff` | internal/api/openapi.go:266-278 | An operation keeps its name exactly when no earlier one was given it; otherwise it is the name and a number. |
| `OperationIds.SameNamesSameIds` | internal/api/openapi.go:71-73 | The same names in the same order give the same ids. |
| `Numerals.ItoaIsInjective` | internal/api/openapi.go:272 | Different numbers have different decimal numerals. |
| `NtpClock.NothingOverflows` | internal/api/diag_handlers.go:319-332 | No 64-bit product or shift of the conversions overflows. |
| `NtpClock.RoundTrip` | internal/api/diag_handlers.go:319-332 | In era 0 an instant comes back at most a nanosecond early and never late. |
| `NtpClock.NtpIsMonotone` | internal/api/diag_handlers.go:319-323 | Later instants have later timestamps. |
| `NtpClock.ComesBackIff` | internal/api/diag_handlers.go:319-332 | An instant of any year comes back exactly in era 0 and not at its very start. |
| `NtpClock.NtpOffset` | internal/api/diag_handlers.go:253-275 | An offset exactly from a well-formed answer of a synchronised server, by the formula of section 5 of RFC 4330. |
| `NtpClock.OffsetErrorBound` | internal/api/diag_handlers.go:273-275 | The offset is the true skew within half the round trip and rounding, while neither leg exceeds 146 years. |
| `NtpClock.AbsDoesNotOverflow` | internal/api/diag_handlers.go:334-339 | A measured offset always has an opposite, so its absolute value does not overflow. |
| `NtpClock.ReportedIff` | internal/api/diag_handlers.go:273-275 | For every clock and answer the offset is reported exactly when the two legs come to more than ten seconds and stay that far from a full wrap. |
| `NtpClock.SkewIsJudgedRight` | internal/api/diag_handlers.go:127-139 | Inside the query deadline, for a clock ahead or behind by any amount, more than 5.6 seconds off is reported and less than 4.4 is not, until it is as near to 292 years off, where it passes for right; within two nanoseconds. |
| `NtpClock.EraOneIsMisread` | internal/api/diag_handlers.go:325-332 | From 7 February 2036 a server's time reads as 136 years earlier. |
| `NtpClock.RightClockIsReportedInEraOne` | internal/api/diag_handlers.go:253-275 | So a clock that is right is then reported, whatever the server. |
| `NtpClock.CheckClock` | internal/api/diag_handlers.go:166-195 | The first answer to arrive counts, and any answer makes the clock measured. |
| `NtpClock.ClockFindings` | internal/api/diag_handlers.go:198-220 | Which findings are made: skew of the first answer past tolerance, no source at all, not synchronised. |

## Left out

Assumptions the results rest on:

- One request handler runs at a time where state is read and written back: login attempts, certificates and traffic reports are atomic. Log publishing is the exception and is modelled with its lock and its unlocked sends.
- Requests of a dead agent process are not delivered after its successor's.
- Serials, tokens and log epochs drawn at random are fresh; a token stands for its hash.
- One call reads the clock once, and successive readings do not go back.
- An agent that restarts takes its cores with it, as its service unit arranges.
- Database reads and writes succeed, except where a property says otherwise (traffic transactions, the row write of a renewal, the revocation list).
- Text is ASCII: trimming, lower-casing, lengths and truncation are by character.

Modelled by a parameter:

- Reading an address (`parseIP`), rendering an array, materialising a template, choosing a new row's id, and every outcome of a file or process operation.

Stated for less than everything:

- LogShipping.AtMostOnceInOrder: a node with one core; several cores have their own lemmas.
- LogCores.SeveralCoresAtMostOnce: cores that write only while none after them has unaccepted lines; a re-send after any other writing can repeat a line (`TwoCoresRepeatALine`).
- LogShipping.ContiguousWhileUnhurried: a backlog of at most one batch; beyond it lines are dropped by design.
- TrafficRuns.NeverOvercharges: one counter that grows or restarts as a whole; sums have their own lemmas.
- TrafficRuns.PooledBillIsServiceAndSlips: the counters summed under one key are given; as shipped they are the two directions of Xray's counter for a user, since sing-box's names are never that key.
- ConfigApply.EveryRunIsTransactional: safety, not progress; nothing retries a failed start. What a core serves is its config text, so a hot apply of a config that differs only in spelling counts as serving the new spelling.
- PortGuard.EveryRunStaysDisjoint: off a platform edge, and for creates and updates that pass the guard; the stored inbound is the checked one, every stored row parses, and no row is written between a check and its write.
- PortGuard.ClaimsAreBindsIff: one host that may write its firewall, and inbounds that are enabled; redirects left by an earlier text of an edited inbound are not modelled. That a core serves XHTTP over HTTP/3 alone on UDP is the core's own doing.
- ProfileSync.SyncReconciles: one profile's bindings; moving a binding to another profile is not modelled.
- NodeIdentity.LockedOutIffLostOrLate: both sides share one clock and the panel's writes work; a certificate stored without its CA file, whose connection is kept, and enrolling the node again are not modelled.
- NtpClock.OffsetErrorBound: the two legs within 146 years of each other's clocks.
- NodeRouting.NodeRoutesAsThePanelWould: groups of outbounds, members taken by exact tag; the prefix reading has its own lemma.
- AccessAgreement.OfferedIsServed: inbounds, before a subscription fans each out into endpoints and variations.
- AccessAgreement.HandedCredentialIsServedIff: Shadowsocks, whose user keys both sides derive from the user's id, and protocols that are handed nothing of the user's (WireGuard, AmneziaWG, Brook, ForgeDNS) or are not served (SSH).
- LoginGuard.WindowBound: an attempt is decided and recorded at one instant; attempts in flight together are each let through by the same state.
- LogShipping.SeveralCoresResend: one lost response and one re-send; whole runs are in `LogCores`.

Not modelled:

- Metrics, status texts, traffic history, last-seen stamps and security alerts.
- Health derivation, WireGuard peers and tunnel subnets, Shadowsocks per-user keys, share links.
- Paths that bypass the port guard (clone, quickstart, undo, import) and the second check of hop ranges against ports.
- The reverse proxy behind the path table and the reloading of engines.
- Key generation, X.509, TLS and password hashing.
- Building, validating and parsing core configs.
