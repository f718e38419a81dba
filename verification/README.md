# Verification of the theft detection platform's stateful core

A Dafny model of the parts of the repository that keep state across calls, and proofs of what they
keep. `dafny verify dfyconfig.toml` checks everything. Source lines below are relative to the
repository root.

Every module has the same three layers. Methods, on classes where the source updates objects in place,
follow the source's code branch by branch and are proved equal to functions on values. Those functions
form a transition system in which Redis scripts and single MongoDB calls are atomic steps, processes
can stop between any two of them, and time passes only by explicit steps. Lemmas are then about every
run of that system, of any length and in any interleaving.

- `RateLimit`, `ConnectPacing`: the GCRA limiter and the web client that paces its connects to it; `Options` and `Powers` are shared.
- `Concealment`, `ConcealmentRuns`, `ConcealmentHolds`, `ConcealmentIsolation`, `ConcealmentTracking` (file
  `ConcealmentTracker.dfy`): the concealment tracker; one frame as functions, whole runs, matching and holding
  told by sightings alone, the independence of cameras, and the mutable object that refines them.
- `AuditOutbox`, `AuditDrain`, `AuditDelivery`: the audit outbox, the drainer, several drainers at once.
- `Idempotency`: claims, stored responses and releases under one idempotency key.
- `MigrationLock`, `MigrationRunner`: the lease with its heartbeat, and the migrations run under it.
- `PolicyDelivery`, `CameraTransitions`: newer-wins publishing with a reconnecting reader; the health register.
- `AlertPages`: keyset pagination of alerts while the collection changes.
- `ChannelManager`: the WebSocket channels of the web client.

## What the proofs found

- Waiting out `Retry-After` is enough in every run exactly when the period is at most a second or a whole number
  of milliseconds (`RateLimit.HeaderCoversIffPeriodFits`): the script's reply is cut down to whole milliseconds
  before it is rounded up to seconds. The default of 100 requests a minute, a period of 600 ms, is always covered;
  7 requests a minute are not (`RateLimit.RetryAfterCanFallShort`).
- An alert that keeps matching with an unchanged sort key is shown exactly once if it has a date. Without
  `created_at` it is shown at most once, and exactly when fewer than `limit` alerts come before it at the first
  request (`AlertPages.SteadyIsShownOnceIff`), because it matches no keyset clause. `AlertPages.UndatedAlertIsMissed`
  is the smallest instance; on a fixed collection the pages are complete exactly when every match is dated or one
  page holds them all (`AlertPages.PagesAreCompleteIff`).
- At most one handler runs per idempotency key exactly when handlers end before their claim, and before what they
  may have stored unheard, can lapse (`Idempotency.AtMostOneExecutionIff`); audit claims are exclusive exactly when
  drainers end before their lease does (`AuditDelivery.ClaimsAreExclusiveIff`); and two migration runners exclude
  each other exactly when renewal interval, two calls and one cancellation fit into the lease
  (`MigrationLock.ExclusiveIffHoldFitsLease`).
- A watcher that caught up is at the stored policy version, and the detector runs the watcher's version, exactly
  when no positive version can be published with a malformed policy (`PolicyDelivery.DeliveredIffWellFormed`).
- A channel closed with 1008 for a terminal reason does not always stay closed. A loss of the network ends the stop
  (`ChannelManager.OfflineRevives`), and until then it stays closed exactly when no earlier probe is in flight and
  no timer is pending that the channel has forgotten (`ChannelManager.TerminalCloseIsFinalIff`).
- `_holder_present` rejects nothing that passed the earlier checks exactly when `missing_seconds` is not
  negative (`Concealment.HolderCheckIsRedundant`).
- An event whose reachable replies are all unrecognised is buried by the first reply numbered twelve or
  more, counting unreachable attempts too; if the twelfth attempt is itself unreachable, it is the next
  reachable one (`AuditDrain.TwelfthUnrecognisedBuries`).

## Model

| member | source | states |
|---|---|---|
| RateLimit.RateKey.Attempt | services/api/app/core/rate_limit.py:20-41 | one run of the script: an admission stores the new arrival time, kept up to the first whole millisecond not before it; a refusal reports the wait and changes nothing |
| RateLimit.RateKey.Lapse | services/api/app/core/rate_limit.py:39 | Redis may drop the key from its PX deadline on, no earlier |
| RateLimit.WindowBound | services/api/app/core/rate_limit.py:28-40 | from any stored value, every window of length L of every chronological run admits at most burst + floor(L / period) requests |
| RateLimit.AdmittedWholeIffConforms | services/api/app/core/rate_limit.py:28-40 | from an empty key a stream of requests is admitted in full if and only if every one of its windows keeps to the bound |
| RateLimit.TokenBucketDecidesAlike | services/api/app/core/rate_limit.py:28-40 | request by request the script decides like a token bucket of capacity burst that gains one token per period, and its stored time is that bucket's debt |
| RateLimit.ExpiryNeverChangesAReply | services/api/app/core/rate_limit.py:28-40 | whenever Redis drops the key from its deadline on, every reply equals that of a key that never expires |
| RateLimit.AdmittedFromShortfallOn | services/api/app/core/rate_limit.py:33-36 | a refused request retried later, nothing admitted meanwhile, is admitted if and only if the unrounded shortfall has passed |
| RateLimit.ReportedWaitIsLeast | services/api/app/core/rate_limit.py:33-36 | for periods of whole milliseconds the reported wait is the exact least wait |
| RateLimit.HeaderCoversIffPeriodFits | services/api/app/core/rate_limit.py:81-107 | every refusal in every chronological run, retried after its Retry-After, is admitted, if and only if the period is at most 1000 ms or a whole number of milliseconds |
| RateLimit.RetryAfterCanFallShort | services/api/app/core/rate_limit.py:81-107 | an instance where the header is waited out and the request is refused again |
| RateLimit.HeaderIsTight | services/api/app/core/rate_limit.py:104-107 | the header is at least one second and covers the truncated wait, and above one second never promises a whole second more |
| ConnectPacing.BackoffDelay | apps/web/lib/websocket/backoff.ts:12-15 | every delay lies between 1 and 30 seconds |
| ConnectPacing.CeilingDoublesToItsCap | apps/web/lib/websocket/backoff.ts:12-15 | the ceiling of the draw starts at 500 ms and doubles with every attempt up to 30 seconds |
| ConnectPacing.DelayIsDrawnBelowCeiling | apps/web/lib/websocket/backoff.ts:12-15 | a delay is the drawn share of the ceiling to the nearest millisecond, or 1000 ms when that is less |
| ConnectPacing.BackoffNeverShrinks | apps/web/lib/websocket/backoff.ts:12-15 | for the same random draw a later attempt never waits less |
| ConnectPacing.ConnectSpacing.constructor | apps/web/lib/websocket/backoff.ts:10 | no connect is scheduled yet |
| ConnectPacing.ConnectSpacing.ReserveConnectSlot | apps/web/lib/websocket/backoff.ts:17-21 | the wait ends at the reserved slot, which is remembered |
| ConnectPacing.ConnectSpacing.ResetConnectSpacing | apps/web/lib/websocket/backoff.ts:23-25 | the memory of the last slot is dropped |
| ConnectPacing.SlotsKeepTheirDistance | apps/web/lib/websocket/backoff.ts:17-21 | between resets slots i and j are at least (j - i) times 2000 ms apart, none is earlier than its backoff asked, and none is later than that and the slot before it require |
| ConnectPacing.PacedUpgradesAreNeverRefused | services/api/app/core/rate_limit.py:65-78 | upgrades sent on those slots, arriving in order and at most (burst - 1) periods late, are all admitted by the period of 30 upgrades a minute from an empty key |
| Concealment.EdgeDistanceIsToNearestPoint | services/ai/app/concealment.py:58-65 | the edge distance of a point is that to the nearest point of the box |
| Concealment.NearIff | services/ai/app/concealment.py:50-75 | boxes are near if and only if their centres are within one and a half heights of either, or one and a half pixels |
| Concealment.TorsoIffAllFourAreSeen | services/ai/app/concealment.py:78-89 | a torso is both shoulders and both hips with enough confidence; its length does not depend on the side |
| Concealment.ClosestWristIsClosest | services/ai/app/concealment.py:186-207 | a hold is found if and only if some visible wrist is within the grab ratio, and it names the closest such wrist, of equally close ones the first |
| Concealment.BestMatchIsNearest | services/ai/app/concealment.py:165-184 | no free item matches, or the chosen one matches, is nearest, and is the first of the equally near |
| Concealment.HolderCheckIsRedundant | services/ai/app/concealment.py:266-288 | once the other checks pass, the check on the holder's presence passes if and only if missing_seconds is not negative |
| Concealment.FiresIffJustified | services/ai/app/concealment.py:232-306 | an item fires if and only if it was held and not fired, is missing at least missing_seconds and at most expiry_seconds, has no near detection of its class, the first person of its holder's track in this frame shows torso and a wrist and every visible wrist out of reach of the spot, and missing_seconds is not negative |
| Concealment.VerdictsAreJustified | services/ai/app/concealment.py:290-329 | a verdict is about the first such item, and comes if and only if there is one and the camera's last verdict is at least expiry_seconds ago |
| Concealment.FrameKeepsUnexpired | services/ai/app/concealment.py:303-329 | after a frame the camera keeps, in order, exactly the items seen no longer ago than expiry_seconds, those that fired as fired, whether or not they got the verdict |
| Concealment.FrameKeepsRecentPersons | services/ai/app/concealment.py:133-134 | after a frame the camera remembers when it last saw each person, unless that is longer ago than expiry_seconds |
| Concealment.VerdictPersonIsInFrame | services/ai/app/inference.py:264-267 | the person behind a verdict is found by the linear search and by the dictionary of services/ai/app/servicer.py:62-64 |
| ConcealmentRuns.DetectionsArePlaced | services/ai/app/concealment.py:136-161 | each detection goes to an item of its own, an old one of its class or a newly numbered one; items matched to none are untouched |
| ConcealmentRuns.FrameKeepsWord | services/ai/app/concealment.py:123-163 | one frame from an honest state: distinct ids, one per detection; verdict equal to the last sighting of its id, with no verdict since, at least expiry_seconds after the camera's last |
| ConcealmentRuns.TrackerKeepsItsWord | services/ai/app/concealment.py:111-163 | the same for every frame of every run of any cameras, any timestamps and retunes in between: ids are never reused, an id keeps camera and class |
| ConcealmentHolds.DetectionsAreTaken | services/ai/app/concealment.py:136-161 | of each detection of a frame: it goes to the nearest item not given to an earlier one, of its class and near or on its holder, the first among equals, and to a new item if there is none; afterwards that item is held if and only if a wrist grabs it, or it was held and has moved and is on its holder; its hold names the closest grabbing wrist, or stays |
| ConcealmentHolds.SeenAgainFollows | services/ai/app/concealment.py:209-230 | the same of one item that is seen again: when its hold begins, stays and ends |
| ConcealmentHolds.RunIsChronicled | services/ai/app/concealment.py:123-230 | in every run, every item is what the sequence of its sightings makes of it: held if and only if it was grabbed at one of them and carried by that holder at every one since; its rest place is the first of them, its box and times the last |
| ConcealmentHolds.VerdictsFollowHistory | services/ai/app/concealment.py:270-329 | in every run, a verdict repeats class, box and frame of its item's last sighting, which is as long ago as the settings ask and no longer than they allow; the item was grabbed at a sighting by the closest wrist, which the verdict names, and carried by that holder at every sighting since |
| ConcealmentIsolation.ObserveIgnoresNames | services/ai/app/concealment.py:123-163 | one frame never looks at the item numbers: renumbering before gives the renumbered items, ids and verdicts after |
| ConcealmentIsolation.CamerasDoNotInterfere | services/ai/app/concealment.py:123-163 | in every interleaving of frames of many cameras and retunes, all that one camera is told equals, up to an increasing renaming of item numbers, what a tracker fed only its frames tells |
| ConcealmentTracking.ItemRecord.constructor | services/ai/app/concealment.py:141-152 | a new item rests where it is first seen and is neither held nor fired |
| ConcealmentTracking.ConcealmentTracker.constructor | services/ai/app/concealment.py:92-109 | a new tracker shows the start of every run |
| ConcealmentTracking.ConcealmentTracker.Retune | services/ai/app/concealment.py:111-121 | each of the four settings is the one given, the move ratio stays, nothing else changes |
| ConcealmentTracking.ConcealmentTracker.SeePersons | services/ai/app/concealment.py:133-135 | the camera's persons are entered with this frame's time, those of other cameras stay |
| ConcealmentTracking.ConcealmentTracker.SetDefault | services/ai/app/concealment.py:136 | the camera has a list afterwards, and no camera's items change |
| ConcealmentTracking.ConcealmentTracker.Match | services/ai/app/concealment.py:165-184 | the record of the best match among the free ones, or none |
| ConcealmentTracking.ConcealmentTracker.Remove | services/ai/app/concealment.py:155 | the free list without that record, order kept |
| ConcealmentTracking.ConcealmentTracker.ClosestWrist | services/ai/app/concealment.py:186-207 | the loops over persons and wrists find the closest grab |
| ConcealmentTracking.ConcealmentTracker.UpdateHold | services/ai/app/concealment.py:209-230 | the record's hold is updated in place to what `ConcealmentHolds.SeenAgainFollows` says of a sighting, `fired` stays |
| ConcealmentTracking.ConcealmentTracker.FindOrAdd | services/ai/app/concealment.py:140-155 | the best free match leaves the free list, or a new record with the next number joins the camera's list |
| ConcealmentTracking.ConcealmentTracker.Refresh | services/ai/app/concealment.py:156-160 | the record shows the detection, is not fired, and its hold is up to date |
| ConcealmentTracking.ConcealmentTracker.TakeIn | services/ai/app/concealment.py:139-161 | one round: n detections taken in become n + 1, in records, numbers, free list and ids; other cameras' lists stay |
| ConcealmentTracking.ConcealmentTracker.TakeInAll | services/ai/app/concealment.py:137-161 | the loop over all detections |
| ConcealmentTracking.ConcealmentTracker.HandOnSpot | services/ai/app/concealment.py:242-264 | the loop with its early returns decides whether the holder's hand may be on the spot |
| ConcealmentTracking.ConcealmentTracker.Ready | services/ai/app/concealment.py:266-288 | whether the item fires, its holder looked up among this camera's persons only |
| ConcealmentTracking.ConcealmentTracker.Consider | services/ai/app/concealment.py:304-328 | one round over the items: kept unless expired, fired when ready, a verdict unless muted |
| ConcealmentTracking.ConcealmentTracker.Sweep | services/ai/app/concealment.py:300-328 | the loop over the items: kept records, verdicts and the new mute are those of the one-frame function |
| ConcealmentTracking.ConcealmentTracker.Forget | services/ai/app/concealment.py:330-336 | this camera's stale persons are dropped, those of other cameras stay |
| ConcealmentTracking.ConcealmentTracker.Collect | services/ai/app/concealment.py:290-337 | the second half of a frame on this camera; items, persons and mute of all others stay |
| ConcealmentTracking.ConcealmentTracker.Observe | services/ai/app/concealment.py:123-163 | one frame: this camera's new view, the next number, ids and verdicts are those of the one-frame function, and every other camera's view is unchanged |
| ConcealmentTracking.ConcealmentTracker.Handle | services/ai/app/concealment.py:111-163 | a step of a run takes an object that shows the run's state to one that shows its next state and gives the run's answers, so the theorems about runs hold of the object |
| AuditOutbox.Outbox.constructor | services/api/app/repositories/audit_outbox_repository.py:26-29 | both collections are empty |
| AuditOutbox.Outbox.Enqueue | services/api/app/repositories/audit_outbox_repository.py:31-43 | a new document under a new id, due at once and unclaimed; the others stay |
| AuditOutbox.Outbox.Claim | services/api/app/repositories/audit_outbox_repository.py:45-66 | a due document without live lease that none is due before gets the claim; none is returned only if none is claimable |
| AuditOutbox.Outbox.Release | services/api/app/repositories/audit_outbox_repository.py:68-69 | exactly that document is gone |
| AuditOutbox.Outbox.Defer | services/api/app/repositories/audit_outbox_repository.py:71-78 | one more attempt, a later due time and no claim, whoever had claimed (`AuditDelivery.PostponedIsDueAgain`); nothing if the document is gone |
| AuditOutbox.Outbox.Bury | services/api/app/repositories/audit_outbox_repository.py:80-92 | inserted as dead with its attempts counted, and deleted |
| AuditDrain.ResolvePending | services/api/app/services/audit_drain.py:54-85 | unreachable postpones, accepted releases, terminal buries, anything else postpones before the twelfth attempt and buries from it on |
| AuditDrain.StatusesDecide | services/api/app/services/audit_drain.py:54-85 | by status number: 1 is accepted, 2 and 4 bury, any other buries from the twelfth attempt on, and no reply never does |
| AuditDrain.DrainOnce | services/api/app/services/audit_drain.py:88-99 | every handled event leaves the outbox except a last one that is postponed; a short batch ends on a postponed event or on an outbox with nothing claimable |
| AuditDrain.DrainFullBatches | services/api/app/services/audit_drain.py:102-116 | batches that follow each other without waiting end, each full one taking at least 31 events away |
| AuditDrain.FirstFinalAttemptDecides | services/api/app/services/audit_drain.py:54-85 | an event waits exactly while every attempt was unreachable or an unrecognised reply before the twelfth; the first other attempt decides its fate |
| AuditDrain.TwelfthUnrecognisedBuries | services/api/app/services/audit_drain.py:54-85 | if no attempt gets a recognised reply, the event is buried if and only if an attempt from the twelfth on gets a reply, and waits otherwise |
| AuditDrain.DeliverAlone | services/api/app/services/audit_drain.py:54-99 | a drainer alone with one event, woken whenever it is due: after any outcomes the outbox holds the event with all attempts counted, due as drawn and unclaimed, or it is gone, and dead with the number and status of the attempt that decided unless that accepted it |
| AuditDrain.DelayDoublesToItsCap | services/api/app/services/audit_drain.py:36-40 | the delay starts at two seconds and doubles with every attempt up to five minutes |
| AuditDrain.BackoffIsMonotoneAndBounded | services/api/app/services/audit_drain.py:36-40 | before jitter the delay never shrinks with more attempts; after it lies between 1.6 and 360 seconds |
| AuditDelivery.NoEventIsLost | services/api/app/services/audit_drain.py:54-99 | at every moment of every run with any drainers, expired leases, lost replies and crashes, the committed events are exactly those in the outbox, dead or accepted |
| AuditDelivery.StepLosesNothing | services/api/app/repositories/audit_outbox_repository.py:68-92 | no single database call removes an event that is neither accepted nor dead |
| AuditDelivery.ClaimsAreExclusiveIff | services/api/app/repositories/audit_outbox_repository.py:45-78 | no two drainers ever work on the same event, in all runs in which each is done within a given time of its claim, if and only if that time is below the lease |
| AuditDelivery.LateDeferFreesAnothersClaim | services/api/app/repositories/audit_outbox_repository.py:71-78 | with a hold of exactly the lease, a late defer frees another's fresh claim for a third drainer |
| AuditDelivery.AttemptsAreCounted | services/api/app/repositories/audit_outbox_repository.py:71-78 | in every run, the attempts of a document are the postponing writes on it since it was enqueued |
| AuditDelivery.PostponedIsDueAgain | services/api/app/repositories/audit_outbox_repository.py:71-78 | after such a write the event has one attempt more, is due exactly when drawn, and is unclaimed |
| AuditDelivery.ClaimsWaitTheirTurn | services/api/app/repositories/audit_outbox_repository.py:45-66 | a claim comes when the event is due, 60 seconds after any earlier claim, and for an event that no other free one is due before |
| AuditDelivery.UnrecognisedBuriesAfterEleven | services/api/app/services/audit_drain.py:70-85 | in every run of drainers that keep to their lease, an unrecognised reply buries the event if and only if eleven attempts on it were postponed before |
| Idempotency.RedisKey.SetIfAbsent | services/api/app/core/idempotency.py:110 | SET NX EX: the claim is stored if and only if the key was free |
| Idempotency.RedisKey.Set | services/api/app/core/idempotency.py:59 | SET EX overwrites whatever is there |
| Idempotency.RedisKey.Release | services/api/app/core/idempotency.py:24-30 | the key is deleted if and only if it holds exactly the caller's claim |
| Idempotency.IdempotencyState.constructor | services/api/app/core/idempotency.py:36-43 | a state that has stored nothing |
| Idempotency.IdempotencyState.Store | services/api/app/core/idempotency.py:53-60 | the response is stored for a day and marked, unless the request is not tracked or replays |
| Idempotency.IdempotencyState.Release | services/api/app/core/idempotency.py:62-69 | a stored or claimless state releases nothing; otherwise only its own claim can go |
| Idempotency.Begin | services/api/app/core/idempotency.py:86-118 | a free key is claimed; otherwise the request is answered, by the value read after the failed claim, as `Idempotency.LookupAnswers` says |
| Idempotency.AtMostOneExecutionIff | services/api/app/core/idempotency.py:53-69 | for any pending time, at most one handler is ever in flight and responses are stored at least a day apart, in all runs in which handlers end within a given time of their claim, if and only if that time is below the pending time and below a day |
| Idempotency.EveryoneElseGetsThatResponse | services/api/app/core/idempotency.py:86-118 | in such runs, during the day after a store no request gets to run, and a lookup gives the stored body or, for another body hash, a conflict |
| Idempotency.LookupAnswers | services/api/app/core/idempotency.py:86-94 | a conflict if and only if the key holds a value for another body hash, claimed or stored; a replay if and only if it holds a response stored for this one; in progress if and only if it is empty or holds a claim for this one |
| Idempotency.OthersWaitOrConflict | services/api/app/core/idempotency.py:86-118 | in timely runs, while a handler is in flight and has stored nothing, a lookup for the same body hash is in progress and any other is a conflict |
| Idempotency.ReleaseFreesTheKey | services/api/app/core/idempotency.py:62-69 | in timely runs, a failed handler that stored nothing leaves the key free by its release |
| Idempotency.FreeKeyIsTaken | services/api/app/core/idempotency.py:110-116 | a request runs if and only if it finds the key free, its claim lives for the pending time and its response for a day |
| Idempotency.ValuesStayUntilDisplaced | services/api/app/core/idempotency.py:24-30 | with any timing, in every run, from any moment to any later one: what is in the key stays until it lapses, a handler stores, or, for a claim, the very request that took it releases it |
| Idempotency.ReplaysAreStoredResponses | services/api/app/core/idempotency.py:86-94 | with any timing, every replayed body was stored by a request with the same body hash |
| Idempotency.LateHandlersOverlap | services/api/app/core/idempotency.py:53-60 | with a longer hold two handlers run at once and both store |
| Idempotency.LateReleaseOverlaps | services/api/app/core/idempotency.py:53-69 | a store that went through unheard and a release a day later overlap a successor too |
| MigrationLock.LockDocument.ClaimLock | services/api/app/migrations/runner.py:76-102 | the update pipeline takes or renews the lock if and only if it is absent, past its lease or the caller's own |
| MigrationLock.LockDocument.Delete | services/api/app/migrations/runner.py:132-161 | the lock goes only if the caller owns it |
| MigrationLock.ExclusiveIffHoldFitsLease | services/api/app/migrations/runner.py:105-161 | no timely run has two runners in the guarded body if and only if renewal interval, two calls and one cancellation fit into the lease |
| MigrationLock.RunKeepsSafe | services/api/app/migrations/runner.py:105-161 | under that bound every runner inside, entering or stopping is named by the lock document with the lease it counts on |
| MigrationLock.SlowHeartbeatOverlaps | services/api/app/migrations/runner.py:117-129 | with any slower latencies, a timely run that ends with two runners inside |
| MigrationLock.LockStaysWithItsOwnerIff | services/api/app/migrations/runner.py:76-161 | with any timing, in every run, an owner keeps the lock throughout any stretch if and only if it does not delete it and nobody claims it after its lease ran out; so no other runner that leaves ever deletes it |
| MigrationRunner.Database.Record | services/api/app/migrations/runner.py:62-73 | up inserts the version, down deletes it |
| MigrationRunner.ApplyUp | services/api/app/migrations/runner.py:165-181 | calls in order, each version recorded after its module, cut off after any number of database calls |
| MigrationRunner.ApplyDown | services/api/app/migrations/runner.py:184-200 | the same downwards, each version deleted after its module |
| MigrationRunner.Run | services/api/app/migrations/runner.py:203-220 | one invocation: not cut short, an up adds exactly the listed versions up to the target, and a down takes away exactly those from the target on, or all without a target |
| MigrationRunner.UpIsExact | services/api/app/migrations/runner.py:165-181 | cut off anywhere, the modules called are, in ascending order, the first of the listed versions not recorded and not above the target, and each is recorded right after its call |
| MigrationRunner.DownIsExact | services/api/app/migrations/runner.py:184-200 | likewise in descending order for the recorded versions not below the target |
| MigrationRunner.PendingIsTheNextBlock | services/api/app/migrations/runner.py:165-172 | from a recorded prefix, the pending versions are the block right after it up to the target |
| MigrationRunner.ReversibleIsTheLastBlock | services/api/app/migrations/runner.py:184-191 | from a recorded prefix, the reversible versions are its last block down to the target, last first |
| MigrationRunner.RecordedIsAlwaysAPrefix | services/api/app/migrations/runner.py:43-73 | after any ups and downs with any targets, each dying anywhere, the recorded versions are a prefix of the sorted list |
| MigrationRunner.UpThenDownRestores | services/api/app/migrations/runner.py:165-200 | from exactly the versions below T, a completed up and a completed down to T restore the recorded set, calling down in the exact reverse order of up |
| PolicyDelivery.PolicyStream.PublishPolicy | services/api/app/services/policy_sync.py:21-35 | a body newer than the stored one, well-formed or not, is stored and published together, an older one does neither |
| PolicyDelivery.Detector.ApplyPolicy | services/ai/app/inference.py:141-153 | the detector runs the policy given |
| PolicyDelivery.Detector.FailToApply | services/ai/app/inference.py:141-153 | a policy that lacks fields leaves the detector with whatever had been taken over |
| PolicyDelivery.PolicyWatcher.Apply | services/ai/app/policy_watcher.py:44-57 | only a newer document reaches the detector and the version |
| PolicyDelivery.PolicyWatcher.Handle | services/ai/app/policy_watcher.py:73-116 | a stored document or message is applied if readable, newer and well-formed; a newer malformed one reaches the detector but not the version; the rest is dropped |
| PolicyDelivery.DeliveryHasNoGap | services/ai/app/policy_watcher.py:73-116 | in every interleaving of writers, malformed documents, damage and disconnects: applied versions strictly increase, the detector runs the watcher's version unless an apply has failed since, and a watcher that is subscribed, caught up and drained is behind the stored version if and only if that one is malformed and newer |
| PolicyDelivery.DeliveredIffWellFormed | services/ai/app/policy_watcher.py:44-116 | in all runs a drained watcher is at the stored version or above, and in all runs the detector runs the watcher's version, each if and only if no positive version can come malformed |
| PolicyDelivery.StepKeepsNoGap | services/ai/app/policy_watcher.py:94-116 | the stored version is applied, in hand or queued from the catch-up on; it rests on subscribing before reading |
| PolicyDelivery.StepsAddUpToHandle | services/ai/app/policy_watcher.py:44-57 | the interleaved small steps add up to what Handle does |
| PolicyDelivery.NewestOfferIsStored | services/api/app/services/policy_sync.py:21-35 | whatever the order in which writers arrive, the newest document offered is stored, of equal versions the first |
| CameraTransitions.HealthKey.constructor | services/api/app/services/camera_reconcile.py:23-43 | an empty key, nothing published |
| CameraTransitions.HealthKey.Transition | services/api/app/services/camera_reconcile.py:23-43 | an observation not newer changes nothing; a newer one is stored with a new lifetime, and published if the state differs |
| CameraTransitions.HealthKey.Lapse | services/api/app/services/camera_reconcile.py:37 | Redis may drop the pair from its deadline on, no earlier |
| CameraTransitions.Replay | services/api/app/services/camera_reconcile.py:84-108 | offering observations one by one gives the register the lemmas speak of |
| CameraTransitions.LatestObservationWins | services/api/app/services/camera_reconcile.py:23-43 | for any arrivals the stored pair is the observation of greatest time, of equal times the first arrival; the published states are the record-setting ones without consecutive repeats, so the last event equals the stored state |
| CameraTransitions.ArrivalOrderIsIrrelevant | services/api/app/services/camera_reconcile.py:58-81 | the same observations in any other order leave the same time, and the same pair unless observations tie |
| AlertPages.BuildQuery | services/api/app/repositories/alert_repository.py:62-90 | the query built clause by clause matches exactly the documents the request asks for |
| AlertPages.ListPage | services/api/app/repositories/alert_repository.py:28-60 | the page is the first `limit` of the wanted documents below the cursor, in descending (field, _id) order |
| AlertPages.Count | services/api/app/repositories/alert_repository.py:92-113 | the number of wanted documents |
| AlertPages.ScanDescends | services/api/app/usecases/alert_usecase.py:317-340 | all that a scan shows comes in strictly descending order of the keys read, whatever changes between requests |
| AlertPages.SteadyIsShownOnceIff | services/api/app/usecases/alert_usecase.py:317-340 | a document that matches throughout with an unchanged sort key is shown at most once, whatever is inserted, changed or deleted between requests, and it is shown if and only if it has a date or fewer than `limit` documents come before it at the first request |
| AlertPages.UndatedAlertIsMissed | services/api/app/repositories/alert_repository.py:28-60 | two alerts without created_at, one to a page: the scan shows one and ends |
| AlertPages.ServePage | services/api/app/usecases/alert_usecase.py:317-340 | one row more than asked for is fetched; the page is the first `limit`, the next cursor its last key if there is more and that key has a date |
| AlertPages.FollowingIsShort | services/api/app/usecases/alert_usecase.py:317-340 | however far the cursor is followed on a fixed collection, all pages but the last are full and together show no more documents than match |
| AlertPages.FollowCursor | apps/web/features/alerts/hooks/use-alert-page.ts:14 | asking for the next page while there is one ends, with a scan as the other results speak of; what it shows descends, matches, and is all there is if and only if every match is dated or one page holds them all |
| AlertPages.PagesAreCompleteIff | services/api/app/repositories/alert_repository.py:28-113 | on a fixed collection the pages concatenate to the full sorted result, as long as count says, if and only if every match is dated or one page holds them all |
| ChannelManager.Channel.constructor | apps/web/lib/websocket/manager.ts:41-59 | an idle channel without socket, timers or subscribers |
| ChannelManager.Channel.ClearTimers | apps/web/lib/websocket/manager.ts:71-80 | reconnect timer and watchdog are cancelled and forgotten |
| ChannelManager.Channel.Teardown | apps/web/lib/websocket/manager.ts:82-97 | a new generation; the socket is forgotten, silenced and closed |
| ChannelManager.Channel.Park | apps/web/lib/websocket/manager.ts:99-102 | no timers, status offline |
| ChannelManager.Channel.ScheduleReconnect | apps/web/lib/websocket/manager.ts:115-135 | idle without subscribers, parked offline, stopped after 12 attempts, else one more timer |
| ChannelManager.Channel.Connect | apps/web/lib/websocket/manager.ts:154-183 | a socket only with subscribers, without another and not offline; a failed construction reschedules |
| ChannelManager.Channel.OnOpen | apps/web/lib/websocket/manager.ts:176-184 | a current socket resets the attempts and arms the watchdog, a stale one does nothing |
| ChannelManager.Channel.OnMessage | apps/web/lib/websocket/manager.ts:185-197 | a current socket's message re-arms the watchdog and reaches the listeners unless it is a ping |
| ChannelManager.Channel.OnClose | apps/web/lib/websocket/manager.ts:199-219 | what `ChannelManager.ClosesByCode` says for a current socket; nothing for a stale one |
| ChannelManager.Channel.Diagnose | apps/web/lib/websocket/manager.ts:137-152 | after its request: stopped, parked or rescheduled, whatever the generation is by then |
| ChannelManager.Channel.OnTimer | apps/web/lib/websocket/manager.ts:131-134 | the timer is forgotten and a connect tried |
| ChannelManager.Channel.OnReachability | apps/web/lib/websocket/manager.ts:224-239 | offline tears down and parks; otherwise a channel without socket that is not stopped starts over |
| ChannelManager.Channel.Subscribe | apps/web/lib/websocket/manager.ts:253-260 | one subscriber more, and a connect unless one exists, is scheduled or was given up |
| ChannelManager.Channel.Unsubscribe | apps/web/lib/websocket/manager.ts:261-269 | one subscriber less; the last one tears down |
| ChannelManager.Channel.Retry | apps/web/lib/websocket/manager.ts:284-298 | with subscribers: torn down, attempts reset, parked offline or connecting |
| ChannelManager.HandleReachabilityChange | apps/web/lib/websocket/manager.ts:222-241 | every channel is notified once, none is changed otherwise |
| ChannelManager.StepKeepsSafe | apps/web/lib/websocket/manager.ts:71-298 | every event on any channel keeps the safety of all channels |
| ChannelManager.ChannelsStaySafe | apps/web/lib/websocket/manager.ts:71-298 | in every interleaving of subscribers, sockets, timers, watchdogs, late probes and reachability: at most one socket can fire, the channel's own, and none without subscribers or offline; messages reach listeners only from it; at most 12 reconnects are scheduled between resets |
| ChannelManager.ClosesByCode | apps/web/lib/websocket/manager.ts:199-219 | the current socket's close: 1000 and a terminal 1008 arm no timer and start no probe, 1006 starts exactly one probe and no timer, any other code arms exactly one timer, or stops after 12 attempts |
| ChannelManager.TerminalCloseIsFinalIff | apps/web/lib/websocket/manager.ts:199-241 | after a terminal close the channel gets no socket and no timer, in all runs without a retry, the last subscriber's leaving or a loss of the network, if and only if no probe is in flight and no forgotten timer is pending |
| ChannelManager.OfflineRevives | apps/web/lib/websocket/manager.ts:222-241 | a loss of the network ends even such a stop: once back, the channel connects |
| ChannelManager.LateProbeMeetsTerminalClose | apps/web/lib/websocket/manager.ts:137-152 | a run in which an earlier probe is in flight when the terminal close comes |
| ChannelManager.OpeningStartsOver | apps/web/lib/websocket/manager.ts:176-184 | the current socket's opening resets the attempts and arms the watchdog, nothing else |
| ChannelManager.MessagesAreDelivered | apps/web/lib/websocket/manager.ts:185-197 | every message of the current socket re-arms the watchdog, and all but pings are delivered |
| ChannelManager.JoiningConnects | apps/web/lib/websocket/manager.ts:253-260 | a subscriber more brings up a channel that has no socket and no timer and was not given up, and leaves any other as it is |
| ChannelManager.LeavingDisconnects | apps/web/lib/websocket/manager.ts:261-269 | only the last subscriber's leaving disconnects |
| ChannelManager.RetryingStartsOver | apps/web/lib/websocket/manager.ts:284-298 | a retry silences the old socket and connects anew with no attempts counted |
| ChannelManager.TimersConnect | apps/web/lib/websocket/manager.ts:131-134 | a reconnect timer connects if there are subscribers and no other socket |
| ChannelManager.WatchdogsReconnect | apps/web/lib/websocket/manager.ts:104-113 | a silent socket is dropped and one reconnect scheduled, unless the browser is offline |
| ChannelManager.ProbesDecide | apps/web/lib/websocket/manager.ts:137-152 | a probe gives up, waits for the network, or schedules one reconnect |
| ChannelManager.ReachabilityDropsAndRestores | apps/web/lib/websocket/manager.ts:222-241 | going offline drops every channel; coming back connects those with subscribers that were not given up, with no attempts counted |

## Left out

- Redis and network errors of the limiter, the switch RATE_LIMIT_ENABLED and the lookup of settings: short branches around the script.
- Floating point and number texts: coordinates, times and the stored arrival time are reals, `hypot` is an arbitrary function of two reals, and an infinite distance never matches or not; none of the properties is about rounding except where the source truncates.
- ConcealmentTracking.ConcealmentTracker.Remove: compares records by identity where the source's list compares fields; items of one camera differ in their ids (`ConcealmentRuns.TrackerKeepsItsWord`), so the two agree.
- The lock around the tracker in services/ai/app/inference.py: one call at a time is assumed.
- PolicyDelivery.PolicyWatcher.Handle: `prime` raises on unreadable or malformed stored text where `_catch_up` logs it; both count as dropping it. What a failed apply leaves in the detector is any policy; `_report` is not modelled.
- Pub/sub inside one subscription is assumed lossless and in order; what was published while disconnected is lost, as in Redis.
- A policy version stands for one policy for good, as the unique version index of the policy collection provides.
- `run_policy_sync`, `_sync_once` and `run_reconcile` as polling loops: their offers are events of the runs.
- CameraTransitions.LatestObservationWins: speaks of the runs before the key lapses; after a lapse an older observation can be stored again.
- Parsing of the health key and of JSON: a stored value is a readable one or not.
- The audit outbox's cap and shedding in services/api/app/services/audit_service.py, its gauges, the append call's transport and the audit service's hash chain.
- Idempotency for several keys: keys never meet, so one key is modelled; requests without the header touch none.
- Hashing and encoding of bodies: a hash is a value, and a claim is its hash with the request's token, assumed unique.
- The polling and the overall wait of a migration runner for its lock: it may claim at any time and give up at any time.
- MigrationRunner.RecordedIsAlwaysAPrefix: speaks of one fixed list of distinct versions; discovery of modules and index creation are not modelled, and what a module does to other collections is not either.
- AlertPages.FollowCursor: a page limit is at least one, as the query parameter in services/api/app/api/v1/alerts.py:55 has it.
- AlertPages.ListPage: a cursor is a date and an id of a document; malformed cursors, ids that are not object ids and the cache in front of the loader are not modelled.
- Inserting, acknowledging and deciding alerts: they appear only as arbitrary changes of the collection between requests.
- ChannelManager.Channel.OnMessage: which envelopes parse is not modelled; `ping` covers all that are not handed on.
- The status of a channel as a mirror of its socket: a late probe can set it over an open socket, so no such claim is made.
- Listeners that call back into the manager from inside a callback, rendering on a server without a window, and subscribers of the status.
- Model inference, video, snapshots, gRPC, TLS, observability and the user interface.
