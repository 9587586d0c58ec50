# Symba, verified

Symba is a durable job engine: clients submit jobs, engines claim them from Postgres and hand them to
workers over streams, workers report back, and a browser follows along over server-sent events. This
project models the engine's hardest parts in Dafny and proves what they keep, over every input and every
run. It covers:

- **Dispatch** (`fairness.dfy`, `ring.dfy`, `matcher.dfy`, `tagruns.dfy`, `registry.dfy`, `slots.dfy`,
  `pass.dfy`): the order in which claimed jobs go out, the worker ring that resumes where it stopped, the
  bounded cursor map shared by all tag sets, why no slot frame, stale or not, can over-assign a worker, and a
  tag group's whole turn.
- **Rate limits** (`buckets.dfy`, `ratelimit.dfy`, `quotas.dfy`): the token bucket in Redis and in Postgres,
  failover between them, and the dispatcher's reserve, claim and return cycle run by any number of engines.
- **The job lifecycle** (`jobs.dfy`, `gates.dfy`, `job_*.dfy`, `engine.dfy`): submit, fan-out, claim,
  heartbeat, complete, fail, sweep, wait, signal and cancel as atomic steps on the live table, the archive,
  gates, dependencies, chains and signals; properties hold after every sequence of steps, with any stale
  tokens in between. `engine.dfy` is the imperative form: tables changed statement by statement, every
  transaction keeping them sound and equal to its step.
- **Cron** (`cron.dfy`): engines with arbitrary clocks advancing one schedule.
- **Server-sent events** (`sse.dfy`): the incremental parser against sections 9.2.5 and 9.2.6 of the WHATWG
  HTML Living Standard, for every chunking, and against the engine's own writer.
- **The pipeline picture** (`layout.dfy`): longest-path layering by relaxation.

Each SQL statement's effect is modelled from its text. A service transaction is one step. Fields that are
not columns (`History`, `Log`) record what happened, so that a property of a run can be said of its last
state; no step reads them to decide what to do.

## Where the code does not keep its word

Each of these is proved, with the exact condition under which the promise does hold.

- A Redis bucket whose key expires can grant more than capacity plus refill. The bound holds for every run
  exactly when an hour's refill is at least the capacity, or no whole token fits (`TokenBuckets.KeptIff`).
- A take from an engine whose clock is behind the last one sets the bucket's time back, and the same seconds
  are refilled again (`TokenBuckets.BackwardClockOverGrants`). What does hold with any clocks is the bound by
  all forward moves of the stored time (`TokenBuckets.GrantsFollowTheClock`), which is the time elapsed exactly
  when no reading is earlier than the one before (`TokenBuckets.ClimbIsElapsedIff`).
- A rate class is not limited at all by a claim exactly when it was not among the classes the pass asked and
  none of those granted anything (`RateQuotas.OverlookedIff`); any idle engine can get there, and the jobs
  claimed without a token are exactly those claimed after such a look
  (`RatePasses.OverlookedClassIsUnlimited`, `RatePasses.UnmeteredExactly`).
- No frame can over-assign a worker, but a failed re-stamp can: the excess is at most the failed re-stamps,
  and any number of them can be reached (`SlotSafety.ExcessIsFailedStamps`, `SlotSafety.FailedStampsOverAssign`).
- `wait` over the worker API always looks for signals of one fixed tenant, so a job of another tenant parks
  beside a signal meant for it (`JobSignals.WaitMeetsIff`, `JobSignals.FixedTenantMissesSignal`); and a wait
  under a stale lease still consumes a pending signal (`JobSignals.StaleWaitIsHarmlessIff`,
  `JobSignals.StaleWaitTakesSignal`).
- A submitted job is queued only by the completion of its last counted upstream at or after its start time;
  no passing of time queues it (`JobStarts.StepQueuesIff`, `JobStarts.QueuedInRunIff`). So a job submitted
  without upstreams for a time to come never starts, nor does one that names an upstream twice or names one
  that is not live; these are exactly the submits whose row is blocked from the start
  (`JobStarts.SubmitBlockedIff`, `JobStarts.SubmittedForNothing`, `JobStarts.FutureStartNeverQueued`,
  `JobStarts.FinishedUpstreamNeverQueued`). Any other job with a start time is decided for good when its last
  upstream completes: queued if the time has come, never otherwise (`JobStarts.LastUpstreamDecides`,
  `JobStarts.LateUpstreamReleases`).
- A cancelled child is never settled, so a gate that wants all its children never fires again; one with a
  quorum fires exactly when enough of the others win (`JobEffects.CancelledChildNeedsQuorum`).
- The cron header promises one fire after an outage. If an occurrence was missed, there is one at every pass
  up to and including the first later one with no occurrence since the pass before it (`Cron.RecoveryCount`).
  So there is one exactly when nothing was missed or no pass followed, and at most two exactly when, besides, no occurrence falls
  between the recovery and the next pass (`Cron.RecoveryBounds`, `Cron.ThreeFires`, `Cron.RecoveryUnbounded`).
- The dedup key of a schedule allows one live job per window, not one job (`Cron.OneJobPerWindowIff`).
- `fan_out` accepts a quorum of zero or less, which the core module rejects and the statement treats as met
  (`Gates.StatementAgrees`, `Gates.ZeroQuorumFiresOnDeath`).
- The parser ignores retry values above the safe integers (`SseParsing.DelayIsTheStandardsIff`,
  `SseParsing.LargeRetryDiffers`). On a resumed stream it gives events that come before the first id line the
  id of the last connection, where the standard gives them none (`SseParsing.EventsAreTheStandardsIff`,
  `SseParsing.ResumedIdDiffers`), and it takes an id before its block is closed
  (`SseParsing.IdIsTheStandardsIff`, `SseParsing.IdCanDiffer`).

## Model

| member | source | states |
|---|---|---|
| `EventStream.LinesOfRendering` | frontend/src/api/sseParser.ts:40-61 | The reference line splitter is the inverse of writing lines with any mix of LF, CR and CRLF |
| `EventStream.SplitFieldMeaning` | frontend/src/api/sseParser.ts:78-81 | The field name ends at the first colon, one leading space of the value is dropped, no colon means no value |
| `SseParsing.BoundaryIsFirst` | frontend/src/api/sseParser.ts:52-61 | The boundary is the first line break, whole: LF, CRLF, or a CR known not to be half a CRLF; without one there is no break but perhaps a CR at the end |
| `SseParsing.SplitThenMore` | frontend/src/api/sseParser.ts:26-29 | Splitting early and again after more text gives the lines of splitting once |
| `SseParsing.LinesOfRest` | frontend/src/api/sseParser.ts:31-38 | At the end a trailing CR closes a line and any other open line is dropped |
| `SseParsing.ChunkIndependence` | frontend/src/api/sseParser.ts:26-93 | For every text and every chunking, fields and events are those of processing the whole text's lines |
| `SseParsing.EventsGrow` | frontend/src/api/sseParser.ts:26-29 | What was emitted for a prefix is a prefix of what the whole text emits |
| `SseParsing.EventsAreTheStandardsButForIds` | frontend/src/api/sseParser.ts:63-93 | For every chunking the events have the types and data of sections 9.2.5 and 9.2.6 of the WHATWG HTML Living Standard |
| `SseParsing.EventsAreTheStandardsIff` | frontend/src/api/sseParser.ts:63-76 | Their ids are the standard's too exactly when no id was carried over, or no event comes before the first id line |
| `SseParsing.ResumedIdDiffers` | frontend/src/api/sse.ts:59-60 | A resumed stream whose first event has no id: the parser gives it the old one, the standard none |
| `SseParsing.DelayIsTheStandardsIff` | frontend/src/api/sseParser.ts:89-91 | The reconnection delay is the standard's exactly when the last digits-only retry value is a safe integer |
| `SseParsing.LargeRetryDiffers` | frontend/src/api/sseParser.ts:89-91 | Every retry value above the safe integers is honoured by the standard and ignored by the parser |
| `SseParsing.IdIsTheStandardsIff` | frontend/src/api/sseParser.ts:87-88 | The id kept for reconnecting is the standard's exactly when the open block's last id is the one already in force, or the open block sets none and a closed block did, or none was closed, or no id was carried along |
| `SseParsing.IdCanDiffer` | frontend/src/api/sseParser.ts:87-88 | A text on which the two ids differ |
| `SseParsing.SseParser.constructor` | frontend/src/api/sseParser.ts:18-24 | An empty parser with the given delay and id |
| `SseParsing.SseParser.Feed` | frontend/src/api/sseParser.ts:26-29 | New state and events are those of the step function on the old state |
| `SseParsing.SseParser.Finish` | frontend/src/api/sseParser.ts:31-38 | New state and events are those of closing the old state |
| `SseParsing.SseParser.DrainCompleteLines` | frontend/src/api/sseParser.ts:40-50 | Every complete line of the buffer is processed in order and only the open rest stays |
| `SseParsing.SseParser.FindLineBoundary` | frontend/src/api/sseParser.ts:52-61 | The loop finds the first break, or none |
| `SseParsing.LineMatches` | frontend/src/api/sseParser.ts:63-93 | One line does to the fields what the standard's steps do to its buffers, and dispatches the same event |
| `SseParsing.ReadBody` | frontend/src/api/sse.ts:59-78 | A response body read chunk by chunk: events, delay and id depend only on the text |
| `SseFrames.WriterRoundTrip` | src/symba/transport/http_server.py:583-602 | Line-free payloads and keepalives, written and parsed through any chunking, come back as exactly those payloads in order |
| `PipelineLayout.WalkIsShort` | frontend/src/views/PipelineView.tsx:20-26 | On an acyclic graph no walk has more edges than there are listed jobs, so as many passes as jobs are enough |
| `PipelineLayout.RelaxAll` | frontend/src/views/PipelineView.tsx:21-25 | One pass over the edges covers walks of one edge more |
| `PipelineLayout.Depths` | frontend/src/views/PipelineView.tsx:18-26 | The loops leave depths that are realised by walks and cover every walk of up to as many edges as jobs, on any edges |
| `PipelineLayout.DepthIsLongest` | frontend/src/views/PipelineView.tsx:20-26 | On acyclic listed edges each depth is the length of a longest path to the job |
| `PipelineLayout.DeeperIffAcyclic` | frontend/src/views/PipelineView.tsx:20-26 | Every edge goes to a strictly deeper level exactly when there is no cycle |
| `PipelineLayout.PositionsDiffer` | frontend/src/views/PipelineView.tsx:27-34 | No two distinct jobs share a position, whatever the edges |
| `PipelineLayout.Layout` | frontend/src/views/PipelineView.tsx:14-36 | The whole function: positions by level and column, all distinct, and edges pointing right exactly when acyclic |
| `TextOrder.BisectRight` | src/symba/services/matcher.py:225-225 | The number of ids not after the cursor, which splits the sorted ids |
| `WorkerRing.SuccIsRemainder` | src/symba/services/matcher.py:238-239 | Keeping the scan index reduced is the index modulo the number of workers |
| `WorkerRing.NobodyMeansFull` | src/symba/services/matcher.py:237-254 | A scan that places nothing has seen every worker without room |
| `WorkerRing.AssignCount` | src/symba/services/matcher.py:234-254 | A worker gets the visits the scan pays it, up to its capacity |
| `WorkerRing.AssignTotal` | src/symba/services/matcher.py:234-259 | The number placed is exactly the smaller of the jobs and the total capacity |
| `WorkerRing.AssignFair` | src/symba/services/matcher.py:234-254 | No worker beyond its capacity; a worker with room left is at most one job behind any other |
| `WorkerRing.GapFreeIff` | src/symba/services/matcher.py:234-254 | A batch walks the ring without a gap exactly when each worker has room for the visits it gets |
| `RingRuns.StartAfter` | src/symba/services/matcher.py:224-225 | A batch starts at the right-hand neighbour of the worker the cursor names |
| `RingRuns.RunWalks` | src/symba/services/matcher.py:222-251 | Over any number of batches with even room, the placements walk the ring as if they were one batch |
| `RingRuns.RunFair` | src/symba/services/matcher.py:222-251 | After such a run no worker has had two jobs more than another |
| `TagRuns.OthersDoNotMatter` | src/symba/services/matcher.py:222-251 | In every interleaving of tag sets over one bounded cursor map, a tag set that stays among the 1024 most recently served is placed as if it were alone |
| `TagRuns.RecentTagSetWalks` | src/symba/services/matcher.py:222-251 | With even room it walks its ring without a gap over the whole run, and no worker gets two jobs more than another |
| `TagRuns.HeldIffRecent` | src/symba/services/matcher.py:248-251 | A cursor is held exactly while its key is among the 1024 most recently served |
| `TagRuns.ForgottenStartsOver` | src/symba/services/matcher.py:224-225 | A forgotten tag set is placed as if it had never been served |
| `CursorMap.StampValid` | src/symba/services/matcher.py:248-251 | The cursor map never holds more than 1024 keys, each once |
| `CursorMap.KeepsMostRecent` | src/symba/services/matcher.py:248-251 | After any uses the map holds exactly the 1024 most recently served keys, in order |
| `CursorMap.RemembersWorker` | src/symba/services/matcher.py:248-251 | A key still held names the last worker served for it |
| `Fairness.RoundRobinFair` | src/symba/services/matcher.py:304-315 | Each group keeps its order, and in every prefix no group is two ahead of one not used up |
| `Fairness.ShapeIsFair` | src/symba/services/matcher.py:290-301 | A permutation with priorities non-increasing, group order kept and every band balanced |
| `Fairness.CollectBuckets` | src/symba/services/matcher.py:305-308 | The grouping loop builds the queues by key in order of first appearance |
| `Fairness.TakeRound` | src/symba/services/matcher.py:311-314 | One round pops one job of every queue and removes the emptied ones |
| `Fairness.RoundRobinByGroup` | src/symba/services/matcher.py:304-315 | The popping loops compute the interleaving |
| `Fairness.CollectPriorities` | src/symba/services/matcher.py:294-296 | The loop groups the jobs by priority in arrival order |
| `Fairness.FairnessShape` | src/symba/services/matcher.py:290-301 | The loops compute the fair order |
| `Fleets.CapacityIsLargest` | src/symba/services/matcher.py:85-91 | A capacity is exactly the largest number that is free and fits beside the running jobs within the total |
| `Fleets.RegisteredExactly` | src/symba/services/registry.py:78-88 | A registered stream is its worker's current one with the largest of its declared total, its free count and the remembered mark; nothing else changes |
| `Fleets.FramedExactly` | src/symba/services/registry.py:106-146 | An accepted frame sets the free count and raises the total to it if need be; nothing else changes |
| `Fleets.UnregisteredExactly` | src/symba/services/registry.py:90-104 | An accepted goodbye takes the worker off its stream; nothing else changes |
| `Fleets.RegisteredConsistent` | src/symba/services/registry.py:78-88 | A registration keeps: every stream within its worker's high-water mark, the current one at it; no mark falls |
| `Fleets.FramedConsistent` | src/symba/services/registry.py:106-146 | So does a frame from any stream, current or superseded |
| `Fleets.UnregisteredConsistent` | src/symba/services/registry.py:90-104 | So does a goodbye from any stream |
| `Workers.WorkerRegistry.Register` | src/symba/services/registry.py:78-88 | The registry stays consistent; the stream becomes its worker's current one with the largest of its total, its free count and the remembered mark |
| `Workers.WorkerRegistry.Unregister` | src/symba/services/registry.py:90-104 | Removes the worker exactly when the stream is the current one, and nothing else changes |
| `Workers.WorkerRegistry.UpdateSlots` | src/symba/services/registry.py:106-146 | A frame is taken exactly from the current stream and changes nothing otherwise; the registry stays consistent, no total falls |
| `Workers.WorkerRegistry.SnapshotAvailable` | src/symba/services/registry.py:162-166 | Exactly the connections with free slots, each once |
| `SlotSafety.LoadWithinPromise` | src/symba/services/matcher.py:234-254 | The round robin hands no worker more than the capacity computed for it |
| `SlotSafety.StepSafe` | src/symba/services/matcher.py:70-165 | Every step of a pass, and every registration, frame, goodbye and finished job between them, keeps every worker within its bound |
| `SlotSafety.NeverOverAssigned` | src/symba/services/matcher.py:70-150 | In every run with any number of workers and streams, a worker's stamped rows plus the jobs promised or handed to it never exceed its high-water slots or the rows it had at the start |
| `SlotSafety.TotalsNeverFall` | src/symba/services/registry.py:78-146 | In every run no worker's total ever falls |
| `SlotSafety.RowsAccountedFor` | src/symba/services/matcher.py:152-165 | In every run a worker's rows and unstamped jobs are exactly those it started with, plus those handed to it and kept, less those that finished |
| `SlotSafety.ExcessIsFailedStamps` | src/symba/services/matcher.py:152-165 | Counting jobs whose re-stamp failed, every worker's excess is at most its failed re-stamps |
| `SlotSafety.FailedStampsOverAssign` | src/symba/services/matcher.py:152-165 | For every worker and every k there is a run with k failed re-stamps and an excess of exactly k |
| `Matching.NextWithRoom` | src/symba/services/matcher.py:237-254 | The inner loop finds the next worker with room, counting its probes |
| `Matching.Give` | src/symba/services/matcher.py:242-244 | One worker's queue and free slots change, the ring's others stay |
| `Matching.AttributeAt` | src/symba/services/matcher.py:247-247 | Each placed job is attributed, under its own lease, to the worker it was placed with |
| `Matching.PlacedJobIsQueued` | src/symba/services/matcher.py:242-242 | Each placed job is in the queue of the worker it was placed with |
| `Matching.QueuedExactly` | src/symba/services/matcher.py:242-244 | A worker's queue grows at its end by as many jobs as it was handed, and its free slots fall by exactly that many |
| `Matching.Matcher.PlaceOne` | src/symba/services/matcher.py:235-259 | One job: placed with the next worker that has room, cursor stamped and oldest cursor evicted, or left over |
| `Matching.Matcher.PlaceBatch` | src/symba/services/matcher.py:227-259 | The placement loop: targets of the scan, queues, free slots, attribution and cursor all follow from them |
| `Matching.Matcher.AssignRoundRobin` | src/symba/services/matcher.py:202-260 | The whole method over the sorted ring, with the empty cases |
| `Matching.Matcher.Dispatch` | src/symba/services/matcher.py:137-150 | When the claim kept to its limit every claimed job is placed in the fair order, no worker beyond its capacity; queues, free slots and the tag set's cursor follow |
| `Matching.PlanTotal` | src/symba/services/matcher.py:234-259 | As many jobs are placed as there is room for |
| `Matching.PlanFair` | src/symba/services/matcher.py:234-254 | The fairness of the scan, for the workers' capacities and cursor of a batch |
| `Matching.CapacityByWorker` | src/symba/services/matcher.py:85-92 | The loop computes the bounded capacity of every worker and their sum |
| `Matching.LimitIsTotal` | src/symba/services/matcher.py:85-94 | The claim limit never exceeds the room in the ring, and equals it if and only if no worker reports fewer than no slots |
| `TagGroupPass.ClaimedHonoursQuotas` | src/symba/db/queries/claim.sql:91-142 | Whatever rows a claim locks and wherever its limit cuts, no class goes beyond its standing |
| `TagGroupPass.ClaimsAllItCan` | src/symba/db/queries/claim.sql:91-142 | When every row can be locked, exactly the first eligible jobs are claimed, as many as the limit allows |
| `TagGroupPass.ClaimUnderQuotas` | src/symba/services/matcher.py:99-127 | Reserve, claim and return together: every class within its standing, grants asked once, and what was not claimed back in the buckets |
| `TagGroupPass.HandOut` | src/symba/services/matcher.py:137-150 | The claimed jobs are in the workers' queues, each worker has exactly as many fewer slots free, and the cursor names the last one served |
| `TagGroupPass.MatchTagGroup` | src/symba/services/matcher.py:70-150 | The whole turn: all that can be locked is claimed within the workers' room and the classes' standings, every claimed job is queued with a worker in the fair order, none beyond its own room, the cursor moves, unused tokens return |
| `TokenBuckets.TakeIsExact` | src/symba/services/rate_limiter.py:61-76 | A take grants no more than the level and the request, and all it can; the level is in range |
| `TokenBuckets.TakesAdd` | src/symba/services/rate_limiter.py:61-76 | Two takes at one time grant exactly what one take of both would: nothing ungranted is lost |
| `TokenBuckets.ReturnAdds` | src/symba/services/rate_limiter.py:80-91 | A return adds what is given, up to the capacity, and only to a bucket that is there |
| `TokenBuckets.ReturnUndoesTake` | src/symba/services/rate_limiter.py:61-91 | A take with its unused tokens returned leaves the level it found less the tokens used |
| `TokenBuckets.DrainEmpties` | src/symba/services/rate_limiter.py:167-185 | A drained bucket grants nothing at that time, and later only what was refilled since |
| `TokenBuckets.ExactAccount` | src/symba/services/rate_limiter.py:54-91 | In every run without drain, expiry or overflow, granted less returned plus what is left is exactly what was there plus the refill |
| `TokenBuckets.LevelStaysInRange` | src/symba/services/rate_limiter.py:54-91 | Every run of takes, returns and drains keeps the level between zero and the capacity |
| `TokenBuckets.PotentialOfRun` | src/symba/services/rate_limiter.py:54-91 | Granted less returned plus what is available never exceeds what was available plus the refill since |
| `TokenBuckets.BoundOfRun` | src/symba/services/rate_limiter.py:54-91 | From any moment, granted less returned is at most capacity plus refill times elapsed, when expiry is slow |
| `TokenBuckets.KeptIff` | src/symba/services/rate_limiter.py:77-78 | That bound holds for every run exactly when an hour's refill reaches the capacity or no whole token fits |
| `TokenBuckets.OverrunBreaks` | src/symba/services/rate_limiter.py:77-78 | Otherwise a run of takes that sleeps past the expiry breaks it |
| `TokenBuckets.StoresAgreeIff` | src/symba/db/queries/rate_take_pg.sql:30-37 | The SQL refill equals the script's exactly when the clock did not run backwards or nothing refills |
| `TokenBuckets.GrantsFollowTheClock` | src/symba/services/rate_limiter.py:69-76 | With arbitrary clocks grants are bounded by the refill of all forward moves of the stored time |
| `TokenBuckets.ClimbIsElapsedIff` | src/symba/services/rate_limiter.py:69-76 | Those forward moves are at least the time elapsed, and exactly that if and only if no reading is earlier than the one before |
| `TokenBuckets.BackwardClockOverGrants` | src/symba/services/rate_limiter.py:69-76 | Two clocks one second apart pass the bound |
| `RateLimiting.BalanceOfBuckets` | src/symba/services/rate_limiter.py:132-165 | What callers see is at most what the two buckets gave plus what was credited twice |
| `RateLimiting.FailoverBound` | src/symba/services/rate_limiter.py:132-165 | With Redis failing, recovering or losing answers between any calls, at most twice the class's bound beyond double credits |
| `RateLimiting.HealthyBound` | src/symba/services/rate_limiter.py:132-165 | While Redis answers, one bucket's bound |
| `RateLimiting.HealthyAccount` | src/symba/services/rate_limiter.py:132-165 | While Redis answers and the bucket is never drained, expired or full, what callers got less what they gave back is exactly what left the bucket |
| `RateLimiting.HandedBack` | src/symba/services/rate_limiter.py:132-165 | A reserve with the rest handed back before the key expires leaves the Redis level less the tokens used, and Postgres as it was |
| `RateLimiting.HandedBackToPostgres` | src/symba/services/rate_limiter.py:132-165 | The same on Postgres when Redis refuses both calls |
| `RateLimiting.FailoverPassesSingleBound` | src/symba/services/rate_limiter.py:143-151 | One failover reaches twice the bound, so the factor is needed |
| `RateLimiting.RateLimiter.constructor` | src/symba/services/rate_limiter.py:103-114 | No classes are configured and the limiter is not degraded |
| `RateLimiting.RateLimiter.RedisTake` | src/symba/services/rate_limiter.py:233-248 | The Redis bucket after a take that is answered, refused or lost, and the degraded flag |
| `RateLimiting.RateLimiter.Reserve` | src/symba/services/rate_limiter.py:132-151 | Nothing for no request, everything for an unknown class, otherwise the call's grant and both buckets |
| `RateLimiting.RateLimiter.Release` | src/symba/services/rate_limiter.py:153-165 | The tokens are back, up to the capacity, in Redis if it took the call and in Postgres unless Redis answered; the other bucket stays |
| `RateLimiting.RateLimiter.DrainBucket` | src/symba/services/rate_limiter.py:167-185 | Redis is empty if it took the call and Postgres unless Redis answered; the other bucket stays |
| `RateQuotas.ClaimHonoursQuotas` | src/symba/db/queries/claim.sql:91-142 | Whatever the claim picks from the eligible jobs, a class stays within its quota, is skipped, or was open |
| `RateQuotas.EligibleExactly` | src/symba/db/queries/claim.sql:91-142 | Of every class exactly the first ready jobs pass, all if it is open, as many as its quota, or none; all jobs without a class pass; in the order in which they were ready |
| `RateQuotas.EligibleNumber` | src/symba/db/queries/claim.sql:91-142 | How many of a class pass, as a number |
| `RateQuotas.OfClassMembers` | src/symba/db/queries/claim.sql:91-142 | A class's jobs are exactly the ready ones that name it |
| `RateQuotas.UnlimitedIff` | src/symba/db/queries/claim.sql:91-142 | Nothing limits a class exactly when it is not exhausted and no class was reserved |
| `RateQuotas.StandingAfterAsking` | src/symba/services/matcher.py:167-181 | After the reserve loop a class has its grant as quota if asked, and otherwise is skipped or open by whether any class granted |
| `RateQuotas.OverlookedIff` | src/symba/services/matcher.py:167-181 | After the reserve loop a class is unlimited exactly when it was not asked and no class asked granted anything |
| `RateQuotas.ReserveRateTokens` | src/symba/services/matcher.py:167-181 | The loop asks every class once: exhausted and reserved split the classes by their grants |
| `RateQuotas.CountConsumed` | src/symba/services/matcher.py:186-190 | The loop counts the claimed jobs of every class |
| `RateQuotas.GiveBack` | src/symba/services/matcher.py:191-194 | The loop returns each class's unused tokens to its buckets and touches no other |
| `RateQuotas.ReturnUnusedTokens` | src/symba/services/matcher.py:183-194 | Every reserved class gets back what was not claimed |
| `PassCosts.CostIsClaims` | src/symba/services/matcher.py:99-127 | A pass costs a class exactly the tokens of its claimed jobs: after reserve and return the level is the one found less those |
| `RatePasses.RunConserves` | src/symba/services/matcher.py:99-127 | In every interleaving of engines, granted less returned is exactly jobs claimed on quotas plus tokens held |
| `RatePasses.ClaimsBounded` | src/symba/services/matcher.py:99-127 | Jobs claimed on quotas stay within capacity plus refill, or twice that across failures |
| `RatePasses.LookIsReserve` | src/symba/services/matcher.py:167-181 | In any fleet, the look step leaves an engine the standing and the class the buckets that the reserve loop does |
| `RatePasses.ClaimUnlimitedIff` | src/symba/services/matcher.py:99-118 | A pass may claim any number of jobs exactly when its standing is open |
| `RatePasses.OverlookedClassIsUnlimited` | src/symba/services/matcher.py:167-181 | In any fleet, an idle engine that overlooks the class and reserves nothing claims any number without a token |
| `RatePasses.UnmeteredExactly` | src/symba/services/matcher.py:167-181 | In every run the jobs claimed without a token are exactly those claimed after such a look, told from the events alone |
| `Gates.StatementAgrees` | src/symba/core/gates.py:41-64 | The statement decides as the core policies do, exactly for quorums above zero |
| `Gates.BumpSettles` | src/symba/db/queries/bump_gate.sql:34-91 | A bump keeps: fired gates carry their policy's verdict, unfired ones are neither satisfied nor complete |
| `Gates.ResolvesExactlyOnce` | src/symba/db/queries/bump_gate.sql:34-91 | For every order of outcomes exactly one bump resolves, and the branch is the policy on the final counts |
| `Gates.OrderDoesNotMatter` | src/symba/db/queries/bump_gate.sql:34-91 | The branch depends only on the multiset of outcomes |
| `Gates.ZeroQuorumFiresOnDeath` | src/symba/services/fanout_service.py:45-51 | A quorum of zero or less fires the success branch on the first death |
| `JobSafety.OneTableEach` | src/symba/services/job_service.py:103-141 | In every run each job is in exactly one table, with a lease exactly while it runs |
| `JobSafety.AttemptsBounded` | src/symba/core/retry.py:39-46 | In every run a job is claimed at most as often as the largest of one, its stored limit and the caps its failure reports name, plus one per wait, of which there are at most as many as were asked for; its attempt counter is that number |
| `JobSafety.WaitsEndOnce` | src/symba/services/signal_service.py:107-140 | In every run each wait of a live or archived job was ended by exactly one signal or exactly one timeout, but for one still on or cut off by a cancel |
| `JobSafety.RunSane` | src/symba/services/job_service.py:74-358 | The row invariants hold after every run |
| `JobMoves.StepLegal` | src/symba/core/states.py:36-52 | Every transaction moves every job at most one step, and only along the transition table |
| `JobRows.MoveHappens` | src/symba/core/states.py:36-52 | Every move of the table but that from submitted to queued is open to every job in that state, in every state of the engine |
| `JobMoves.RunLater` | src/symba/services/job_service.py:103-141 | In every run the archive only grows, its rows never change, no job is lost and none comes back |
| `JobMoves.StaleForever` | src/symba/services/job_service.py:103-366 | A lease that is not current never is again: completions, failures and heartbeats under it change nothing, now or after any run |
| `JobMoves.SweepEndsEveryLease` | src/symba/services/loops.py:150-182 | The two sweeps end every lease: cancelled if asked for, queued with attempts left, dead otherwise |
| `JobMoves.StateAfterCascade` | src/symba/db/queries/cascade_cancel.sql:16-46 | A cascade cancels live jobs with upstreams and touches no others |
| `JobDeps.ConeClosed` | src/symba/db/queries/cascade_cancel.sql:16-28 | No live job outside the cone depends on the root or on a job of the cone |
| `JobDeps.ConeLeast` | src/symba/db/queries/cascade_cancel.sql:16-28 | The cone is the least such set |
| `JobDeps.CascadeLeavesNoDependent` | src/symba/db/queries/cascade_cancel.sql:16-46 | After a cascade no live job depends on the root, directly or through live jobs; exactly the cone is archived as cancelled |
| `JobDeps.CascadeSparesStarted` | src/symba/services/job_service.py:325-334 | A cascade from a job that did not succeed cancels only jobs that never started |
| `JobDeps.StartedAfterUpstreams` | src/symba/services/submit_service.py:153-167 | In every run a job that started has only upstreams that succeeded |
| `JobDeps.CounterIsUnsucceededIff` | src/symba/services/submit_service.py:153-158 | In every run the counter is the number of unsucceeded upstreams exactly when none is named twice and none had succeeded at submit |
| `JobDeps.DeadUpstreamWasGone` | src/symba/services/job_service.py:325-334 | In every run a live job's dead upstream was already gone at submit |
| `JobStarts.StepQueuesIff` | src/symba/services/submit_service.py:142-167 | A transaction queues a submitted job exactly when it is the accepted completion of its last counted upstream at or after its start time |
| `JobStarts.QueuedInRunIff` | src/symba/services/submit_service.py:142-167 | In every run a submitted job is queued exactly when such a completion occurs |
| `JobStarts.EdgesIffDistinct` | src/symba/services/submit_service.py:87-90 | There are as many dependency edges as names exactly when no name comes twice |
| `JobStarts.SubmitBlockedIff` | src/symba/services/submit_service.py:142-167 | A submit leaves a job that cannot be released exactly when it has no upstream and a time to come, a repeated upstream, or one that is not live |
| `JobStarts.BlockedNeverQueued` | src/symba/services/submit_service.py:142-167 | In every run such a job is never queued |
| `JobStarts.LastUpstreamDecides` | src/symba/db/queries/decrement_deps.sql:19-28 | When the last counted upstream completes, the job is queued at some point of any later run exactly if its start time has come |
| `JobStarts.SubmittedForNothing` | src/symba/services/submit_service.py:142-167 | The two together, from the arguments of the call |
| `JobStarts.FutureStartNeverQueued` | src/symba/services/submit_service.py:161-167 | A job for a time to come, never queued in any run |
| `JobStarts.FinishedUpstreamNeverQueued` | src/symba/services/submit_service.py:153-158 | A job on an upstream that finished just before, never queued in any run |
| `JobStarts.LateUpstreamReleases` | src/symba/services/submit_service.py:161-167 | A run that queues a job for a time to come, through a late upstream |
| `JobEffects.EffectsExactlyOnce` | src/symba/services/job_service.py:103-141 | In every run a job bumps its gate, continues its chain and fires its hook exactly once if it ended that way, else never |
| `JobEffects.GatesCountChildren` | src/symba/services/job_service.py:166-232 | In every run a gate's counts are exactly its children that succeeded, skipped or died |
| `JobEffects.AllChildrenRanMeansFired` | src/symba/services/job_service.py:166-232 | Once every child ran to an end the gate has fired |
| `JobEffects.CancelledChildNeedsQuorum` | src/symba/services/job_service.py:166-232 | In every run a gate with a cancelled child has fired exactly when it has a quorum and enough children won, and took the success branch |
| `JobEffects.QuorumOutOfReach` | src/symba/services/job_service.py:166-232 | In every run it has not fired once too few children are left that can win |
| `JobEffects.HooksMatchDeaths` | src/symba/services/job_service.py:311-323 | In every run exactly the dead jobs with a hook have a hook job, one each, which runs the hook's task, next task and tail for the dead job's tenant |
| `JobEffects.BranchesMatchPolicies` | src/symba/services/job_service.py:187-232 | In every run a fired gate has exactly one job: the continuation for the gate's tenant if its policy holds on the counts, else its hook, field by field |
| `JobFanOuts.FanOutOpensFor` | src/symba/services/fanout_service.py:86-105 | A fan-out opens a gate with the call's policy, continuation and tenant, and a queued child for every specification |
| `JobFanOuts.FanOutStays` | src/symba/services/fanout_service.py:86-105 | After any run the gate still has what the call gave it |
| `JobFanOuts.FanOutDecides` | src/symba/services/fanout_service.py:60-116 | In every run, once all children of a fan-out ran, the gate took the branch of the call's policy on their ends, and its job is the call's continuation or hook |
| `JobEffects.ChainsFollowPlans` | src/symba/services/job_service.py:110-119 | In every run a chain's links run a prefix of its plan in order, only the last can be live, and unstopped success runs all of it |
| `JobEffects.SubmittedChainRuns` | src/symba/services/submit_service.py:59-99 | In every run the chain of an accepted submit runs a prefix of the submitted plan for the submitted tenant, and all of it once the last link succeeded unstopped |
| `JobEffects.AcceptedChainWithinCap` | src/symba/services/submit_service.py:147-152 | In every run the chain of an accepted submit never has more links than the cap plus one |
| `JobEffects.PlanWithinCap` | src/symba/services/submit_service.py:147-152 | A plan is no longer than the chain cap allows, plus the job itself |
| `JobEffects.ClientChainIsPlan` | src/symba/transport/client_service.py:93-99 | A chain of non-empty names led by its first name is its own plan |
| `JobSignals.SignalsConserved` | src/symba/services/signal_service.py:67-140 | In every run and for every tenant and key, signals sent are those delivered plus the stored ones, of which the consumed rows are exactly those consumed |
| `JobSignals.WaitMeetsIff` | src/symba/services/signal_service.py:122-136 | A wait leaves no waiter beside its signal exactly when it does not look past one under another tenant |
| `JobSignals.RunMeets` | src/symba/services/signal_service.py:80-136 | In every run whose waits name the job's tenant, no signal is pending for a job that waits for it |
| `JobSignals.FixedTenantMissesSignal` | src/symba/transport/worker_service.py:206-216 | With one fixed tenant a job of another one misses a signal that came first |
| `JobSignals.StaleWaitIsHarmlessIff` | src/symba/services/signal_service.py:122-134 | A stale wait changes nothing exactly when no signal is pending |
| `JobSignals.StaleWaitTakesSignal` | src/symba/services/signal_service.py:122-134 | A run in which a wait under a lost lease takes a signal from the queued job |
| `EngineSafety.StepSound` | src/symba/services/job_service.py:74-358 | Every transaction keeps rows, dependencies, gates, chains, hooks and branches in order |
| `EngineSafety.CompleteSucceeds` | src/symba/services/job_service.py:74-164 | An accepted completion archives the job as succeeded, with its bump and its continuation once each and no hook |
| `JobRows.CompleteContinues` | src/symba/services/job_service.py:110-119 | The next link is queued and due at once, with the rest of the chain, the same tenant and the same hook |
| `JobRows.CompleteBranches` | src/symba/services/job_service.py:187-232 | The job of a gate that a completion resolved is queued and due at once |
| `EngineSafety.DieDies` | src/symba/services/job_service.py:294-336 | A final failure archives the job as dead, with its bump and its hook once each, no continuation and no live dependent |
| `JobRows.DieHooks` | src/symba/services/job_service.py:311-323 | A death leaves the hook's job queued and due at once, field by field as stored |
| `JobRows.DieBranches` | src/symba/services/job_service.py:187-232 | The job of a gate that a death resolved is queued and due at once |
| `JobRows.SubmitStores` | src/symba/db/queries/submit.sql:19-30 | A submit stores the specification, the start time or now, the state, the counter and the upstreams it was given, and touches no other row |
| `JobRows.CancelRow` | src/symba/services/cancel_service.py:49-82 | A cancelled job is archived as such, or flagged if it runs; without a cascade no other row changes |
| `JobRows.SendWakes` | src/symba/services/signal_service.py:80-105 | A signal wakes the oldest job that waits for it, now due, and no other; else it is stored |
| `JobRows.WaitRow` | src/symba/services/signal_service.py:107-140 | A wait takes the oldest pending signal, or parks the job without its lease, or changes nothing |
| `JobRows.SweepWaitReleases` | src/symba/db/queries/sweep_waits.sql:1-32 | An expired wait is released, queued and due, and nothing else changes |
| `JobRows.PassEnds` | src/symba/services/loops.py:144-188 | After a sweeper pass none of the leases and waits its scans found is as they found it |
| `EngineSafety.ClaimIsExclusive` | src/symba/db/queries/claim.sql:195-206 | A claim's lease is held by no other live job |
| `Engine.JobEngine.constructor` | database/symba/V001__jobs.sql:9-82 | Empty tables, and sound |
| `Engine.JobEngine.MoveRunning` | src/symba/db/queries/complete.sql:14-40 | The lease-guarded move, or nothing |
| `Engine.CollectCone` | src/symba/db/queries/cascade_cancel.sql:16-28 | The loop collects the whole cone |
| `Engine.JobEngine.CascadeCancel` | src/symba/db/queries/cascade_cancel.sql:16-46 | The cone moves to the archive as cancelled |
| `Engine.JobEngine.Settle` | src/symba/services/job_service.py:166-232 | Tables after the settlement, and whether this child resolved the gate |
| `Engine.JobEngine.CompleteJob` | src/symba/services/job_service.py:74-164 | Accepted exactly under the current lease, then succeeded with bump and continuation once each, the next link and a resolved gate's job queued and due; else nothing happens; tables stay sound |
| `Engine.JobEngine.FailJob` | src/symba/services/job_service.py:234-358 | Accepted exactly under the current lease; tried again exactly when retryable and below the cap in force, at the given time; else dead with bump and hook once each, the hook's job queued and due as stored, no live dependent; tables stay sound |
| `Engine.JobEngine.SubmitJob` | src/symba/services/submit_service.py:59-99 | Refused exactly over the chain cap; else the row holds the arguments, and is blocked from the start exactly when the call says so; tables stay sound |
| `Engine.JobEngine.FanOutJobs` | src/symba/services/fanout_service.py:60-116 | Refused exactly when empty; else an open gate with the call's policy, continuation and tenant over one queued child per specification; tables stay sound |
| `Engine.JobEngine.SendSignal` | src/symba/services/signal_service.py:67-105 | Delivered exactly when some live job waits for the key, and then the oldest one is woken and no other; else the signal is stored; tables stay sound |
| `Engine.JobEngine.WaitForSignal` | src/symba/services/signal_service.py:107-140 | Resumed exactly when a signal is pending, taking the oldest; stale exactly without it and without the lease, changing nothing; else parked; tables stay sound |
| `Engine.JobEngine.SweepPass` | src/symba/services/loops.py:144-188 | A pass is the run of its failures, reclaims and released waits, and leaves none of what its scans found; tables stay sound |
| `Engine.JobEngine.ClaimJob` | src/symba/db/queries/claim.sql:195-206 | Claimed exactly when queued and due, one attempt more, under a lease no other live job holds, no other row changed; tables stay sound |
| `Engine.JobEngine.HeartbeatJob` | src/symba/services/job_service.py:360-366 | Accepted exactly under the current lease, which is renewed at now, and nothing happens under any other; tables stay sound |
| `Engine.JobEngine.CancelJob` | src/symba/services/cancel_service.py:49-82 | Exactly while live: archived as cancelled, or flagged if running; after a cascade no live job depends on it, without one no other row changes; tables stay sound |
| `Cron.StepAdvances` | src/symba/services/loops.py:297-347 | Whatever the clocks, every winning compare-and-set strictly increases the window |
| `Cron.RunAdvances` | src/symba/services/loops.py:297-347 | In every run the window never goes back |
| `Cron.EachWindowWonOnce` | src/symba/services/loops.py:330-342 | In every run each window is advanced from at most once |
| `Cron.RunCounts` | src/symba/services/loops.py:319-329 | In every run a window's jobs are its finished ones plus the live one |
| `Cron.OneJobPerWindowIff` | src/symba/services/loops.py:319-329 | A run makes at most one job per window exactly when no engine submits for a window whose job has finished |
| `Cron.TwoEnginesTwoJobs` | src/symba/services/loops.py:319-329 | Two engines can make two jobs for one window |
| `Cron.RecoveryCount` | src/symba/services/loops.py:264-276 | After any outage and for passes at any times in order: one fire if no occurrence was missed, else one per pass up to and including the first later pass with no occurrence since the one before |
| `Cron.RecoveryBounds` | src/symba/services/loops.py:264-276 | One fire if and only if nothing was missed or no pass followed; at most two if and only if, besides, no occurrence falls between the first two passes |
| `Cron.RecoveryIsFirst` | src/symba/services/loops.py:297-347 | Those are the first fires of the run, one per pass, and they end with a window in the future or with the run |
| `Cron.RecoveryUnbounded` | src/symba/services/loops.py:331-335 | Every schedule fires as often as there are passes when each pass comes at an occurrence |
| `Cron.ThreeFires` | src/symba/services/loops.py:331-335 | Three fires of a one-minute schedule with passes seconds apart |
| `Cron.RecoveryFires` | src/symba/services/loops.py:264-276 | When every pass comes before the next regular occurrence: one fire in all of them if no occurrence was missed, two otherwise |
| `Cron.CronService.FireOnce` | src/symba/services/loops.py:297-347 | The whole method without interference equals look, fire and advance; a new schedule gets its first occurrence after now and no job, a due one its job and its last fire, one not due nothing |

## Left out

- `SlotSafety.NeverOverAssigned`: one engine; several engines dispatching to the same worker are not modelled, because each keeps its own registry and counts only what is stamped.
- `JobSafety.AttemptsBounded`: waits add attempts without a check in the code, so the bound grows with them.
- `TagGroupPass.MatchTagGroup`: which rows the claim locks, and which its group limits drop, is any choice of the caller; the choice itself is not modelled.
- `Matching.Matcher.Dispatch`: takes the claimed jobs and the limit as given; `TagGroupPass.MatchTagGroup` computes both.
- `RingRuns.RunWalks`: one tag set with its own cursor; `TagRuns.RecentTagSetWalks` states it over the bounded map shared by all.
- `RingRuns.RunFair`: likewise.
- `SseParsing.EventsAreTheStandardsIff`: does not promise the standard's ids for events before the first id line of a resumed stream, because the parser does not give them.
- `Cron.RecoveryCount`: one engine, whose clock does not go back; what engines do to each other is stated by `Cron.EachWindowWonOnce` and `Cron.OneJobPerWindowIff`.
- Group concurrency counters (`group_running`) and the per-group batch cap of the claim query.
- Dedup keys on ordinary submits; only cron's dedup is modelled, and fan-out children are taken to be new jobs.
- Lease and wait deadlines: a sweep may take any running or waiting job at any time. Backoff delays are any time the caller names.
- Size and tenant caps on submit, results and fan-out, which only refuse a call before it changes anything.
- Configuration changes of a rate class while it is in use, and floating-point rounding of token levels.
- A schedule's expression being edited or switched off; the cron expression is any function to the first later occurrence.
- Checkpoints, resubmission, the event ledger, query endpoints and results.
- Failure redaction, idempotency hashing, versioning, readiness, inline upstream results.
- Text decoding: the parser works on characters, and the decoder in front of it is taken to deliver whole ones.
- gRPC, HTTP, authentication, configuration, logging, metrics, tracing and the user interface other than the layout function.
- Transaction isolation inside Postgres: every transaction is one step.
