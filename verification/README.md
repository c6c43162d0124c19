# Formal model of devsesh's stateful cores

A Dafny 4.11 model of the parts of devsesh that keep state over long runs, with proofs of what they promise. Check it with
`dafny verify dfyconfig.toml`.

Each core has two layers. A value model (`...Model`, `PoolRuns`) describes it as a state machine whose steps are the critical
sections, actor commands, callbacks or statements of the source, and proves properties of every run. Beside it are the
objects, arrays and loops the source works with (`Touches`, `Hub`, `SshClient`, ...), each method proved to do exactly a step
of the machine. What comes from outside (clocks, chunk sizes, errors, the order of a map iteration, which goroutine moves next)
is a parameter or an event, so the theorems hold for every choice of it.

| file | what it models |
|---|---|
| `Touches.dfy` | write-behind cache of session pings and activity, and the table it is flushed to |
| `RateLimit.dfy`, `Throttle.dfy` | sliding-window rate limiter and polling throttle, on timed traces |
| `Hub.dfy` | broadcast hub with bounded queues and slow-consumer eviction |
| `PoolEviction.dfy`, `PoolModel.dfy`, `PoolRuns.dfy`, `PoolFates.dfy`, `PoolLeftovers.dfy`, `PoolCommands.dfy`, `PoolPolicy.dfy`, `PoolGoroutines.dfy`, `SshClient.dfy`, `Sorting.dfy` | browser SSH connection pool: the eviction rule, the critical sections, the interleaving goroutines, what becomes of channels, of connections outside the pool and of failed commands, what a record's fields mean and Connect, sweeps and disconnects do in those terms, when each goroutine ends, the objects |
| `SessionOrder.dfy`, `SessionTags.dfy`, `SessionSeq.dfy` | ordering sessions: drag, merge, sort; the tag filter and the whole way of a drag; the stored order numbers |
| `Tunnel.dfy` | byte tunnel between browser and host |
| `SessionFeed.dfy` | reconnecting live feed |
| `QuickKeys.dfy` | key combinations and macros as terminal bytes, and a reader for them |
| `Signing.dfy`, `SigningLog.dfy` | certificate signing sessions over shared arrays that are wiped in place; the same read off the messages |
| `HandleTable.dfy` | the table of JavaScript values Go code refers to |
| `Base64.dfy` | two-alphabet credential ids and the browser's base64 helpers |
| `SessionFile.dfy` | rebuilding a session file from stored metadata |
| `Common.dfy` | optional values, bytes, small helpers |

Properties that turned out not to hold on all inputs are stated with the exact condition under which they do, or with a
concrete run against them: a CreateSession behind the touch cache (`TouchModel.StepRefines`, `CreateWritesPastTheCache`), a
reorder list that lost a session or that an order of newer ones has overtaken (`SeqModel.ReorderIsSafeExactlyWithoutClash`,
`DeletedThenCreatedClashes`, `NewerOrderThenStaleListClashes`), a stdin channel overwritten after a failed start
(`PoolCommands.LostExactlyAfterAFailedStart`, `PoolFates.AChannelCanBeLost`), a handshake that outlives its record
(`PoolLeftovers.LeftOverWorksExactly`, `AConnectionCanBeLeftOver`), bytes written while the server is closing
(`TunnelModel.WritesAfterTheServersClose`), a sweep between lookup and signing (`SigningModel.SignedBytesExactly`,
`SweptBetweenLookupAndSigning`), a round 2 that relies on the round 1 of an earlier session (`SigningLog.Round2GoesOnExactly`),
keys that cannot be told apart (`QuickKeys.SameBytesExactlyWhenSameCanonically`) or are named like a property of every object
(`QuickKeys.SentAsItIsExactly`), numbers
below zero with a fraction (`HandleModel.Int64RoundTrip`, `MinusAHalfIsTornApart`), start times with a fraction of a second or
from before a resume (`SessionFileModel.StartRoundTrip`, `FractionIsLost`, `ResumeKeepsTheFirstStart`), metadata given twice
or under reserved names (`SessionFileModel.OrderMattersExactlyOnConflicts`, `UpdateRoundTrip`).

Where code and comments differ the model follows the code. The comment above `DeleteSession` of `internal/ssh/ca/session.go`
promises an error for an unknown session; the actor answers without one.

## Model

| member | source | states |
|---|---|---|
| TouchModel.StepRefines | internal/sessions/touches.go:45-90 | each event leaves the table, overlaid by the batch in flight and then by pending, equal to the table of a system with no cache, if and only if the event is not a CreateSession that contradicts what the cache holds for that session |
| TouchModel.CacheRefinesDirectWrites | internal/sessions/touches.go:45-108 | over every interleaving of pings, activity, batch-takes, commits, failed flushes, creations and deletions (no contradicting CreateSession), write-behind cannot be told from direct writes |
| TouchModel.DirectIsLastRecorded | internal/db/queries.go:293-352 | a system of direct writes holds, for every session in the table at the end, its last recorded ping and activity, over any run, creations and deletions of any session among it |
| TouchModel.VisibleIsLastRecorded | internal/sessions/touches.go:45-90 | the same of the overlaid times with the cache, however often flushes were interleaved or failed, if every creation of this very session found the cache quiet for it |
| TouchModel.FinalFlushLosesNothing | internal/sessions/touches.go:88-108 | after any run in which every creation found the cache quiet, with handlers stopped and no batch out, one successful flush leaves the database alone equal to the direct-write system and nothing pending |
| TouchModel.FinalFlushStoresTheLast | internal/sessions/touches.go:90-108 | after that flush the table alone has a session's last recorded times, if every creation of this session found the cache quiet for it |
| TouchModel.StoredIsCutOff | internal/db/queries.go:11 | a stored time is a whole second, never later than the time itself and less than a second earlier |
| TouchModel.VisibleIsWithinASecond | internal/sessions/touches.go:45-90 | so over any run what is shown of a session's last ping and activity is never later than what was recorded last, nor a second or more earlier |
| TouchModel.TouchedWithinASecond | internal/db/queries.go:313-340 | one transaction leaves a row of a listed session with its touch's own times to the second, and with its own where the touch has none; all other rows are as they were |
| TouchModel.FinalFlushStoresToTheSecond | internal/sessions/touches.go:90-108 | after the final flush each row has its last recorded ping and activity to the second |
| TouchModel.FailKeepsNewerTimes | internal/sessions/touches.go:73-87 | a failed flush leaves the table alone, never replaces a time recorded after the batch was taken, brings back the batch's own time where none was, and changes nothing visible |
| TouchModel.BatchOrderIsInvisible | internal/db/queries.go:313-340 | whatever order the map iteration listed the batch in, the transaction writes the same rows: the overlay of the table by the batch |
| TouchModel.CreateWritesPastTheCache | internal/db/queries.go:274-286 | a concrete run in which CreateSession's upsert of a newer ping is overwritten by an older cached one, so stored pings can move back in time |
| Touches.SessionTable.TouchSessions | internal/db/queries.go:313-340 | writes the whole batch in order, or, wherever the database gives up, nothing |
| Touches.TouchCache.EntryOf | internal/sessions/touches.go:35-42 | finds or makes the one entry of a session; a new entry is empty and no other session's entry changes |
| Touches.TouchCache.Ping | internal/sessions/touches.go:45-49 | the entry changed in place is exactly the machine's ping step on the abstract pending map |
| Touches.TouchCache.Activity | internal/sessions/touches.go:52-56 | the entry changed in place is exactly the machine's activity step |
| Touches.TouchCache.TakeBatch | internal/sessions/touches.go:62-69 | swaps the map out and lists every entry exactly once, in whatever order the iteration gives |
| Touches.TouchCache.PutBackBatch | internal/sessions/touches.go:76-85 | putting a failed batch back entry by entry gives the pointwise put-back, newer times winning |
| Touches.TouchCache.Flush | internal/sessions/touches.go:61-90 | without interference: success leaves the overlaid table and nothing pending, failure leaves table and pending exactly as they were |
| RateLimitModel.SlidingWindowBound | internal/util/ratelimit.go:44-64 | in every run with non-decreasing time, every half-open interval of the window's length, wherever it starts, holds at most `limit` grants to a user (none for a negative limit) |
| RateLimitModel.AnswerCountsGrants | internal/util/ratelimit.go:49-64 | a request is allowed exactly when fewer than `limit` requests of that user were granted in the window ending now, whatever the actor has forgotten meanwhile |
| RateLimitModel.RefusedOnlyWhenFull | internal/util/ratelimit.go:57-64 | for a limit of zero or more, a request is refused exactly when that window holds exactly `limit` grants |
| RateLimitModel.TableKeepsWhatCounts | internal/util/ratelimit.go:44-81 | what the table still holds and counts for a user is, at every later instant, everything ever granted that counts |
| RateLimitModel.GrantsMatchPerfectMemory | internal/util/ratelimit.go:38-84 | the grants are those of a limiter that never forgets anything and has no cleanup |
| RateLimitModel.CleanupIsInvisible | internal/util/ratelimit.go:66-81 | inserting, removing or moving cleanup ticks changes no later answer |
| RateLimit.RateLimiter.Valid | internal/util/ratelimit.go:50-55 | the filtering loop keeps exactly the timestamps still inside the window, in order |
| RateLimit.RateLimiter.Allow | internal/util/ratelimit.go:45-64 | after any history the answer and the new table are the model's |
| RateLimit.RateLimiter.CleanupTick | internal/util/ratelimit.go:66-81 | after any history the loop over all users, in any order, is the model's cleanup step |
| ThrottleModel.FiresAreSpaced | internal/util/debounce.go:113-120 | any two successive ticker-driven runs of the callback are at least an interval apart, whatever the clock does |
| ThrottleModel.FiresNeverExceedCalls | internal/util/debounce.go:79-122 | each run of the callback uses up a Call of its own |
| ThrottleModel.NoCallIsDropped | internal/util/debounce.go:84-112 | every Call made before the stop flush is followed by a run of the callback, at the latest by the flush itself |
| ThrottleModel.CallIsServedInTime | internal/util/debounce.go:95-122 | with ticks no further apart than the poll interval, a Call is served within interval plus poll interval, poll being max(interval/10, 5 ms) |
| ThrottleModel.LastFiredIsTheLastFire | internal/util/debounce.go:96-119 | lastFired is always the time of the last ticker-driven run |
| ThrottleModel.PollsTenTimes | internal/util/debounce.go:95-100 | the actor wakes ten times an interval, but no oftener than every five milliseconds |
| ThrottleModel.NothingFiresAfterStop | internal/util/debounce.go:108-112 | whatever calls, ticks and stops follow the stop flush, the callback does not run again |
| Throttle.Throttle.Call | internal/util/debounce.go:80-82 | raises the flag and nothing else |
| Throttle.Throttle.ActorTick | internal/util/debounce.go:113-120 | the nested tests of a tick fire exactly when the model says and leave the model's state |
| Throttle.Throttle.ActorStop | internal/util/debounce.go:108-112 | the stop flush fires exactly when a Call is pending and ends the actor |
| HubModel.StepKeepsInv | internal/sessions/websocket.go:80-138 | registering, unregistering, broadcasting with eviction, and draining each keep the hub's invariant |
| HubModel.HubIsSafe | internal/sessions/websocket.go:95-138 | in every run: nothing is sent on a closed queue, no queue overflows or is closed twice, registered is the same as open, and a user has a key exactly when some client of theirs is registered |
| HubModel.JoinsAndLeaves | internal/sessions/websocket.go:80-138 | how one event changes a client's place: it joins at the current end of the broadcasts, and is removed there by exactly the removing events, its own Unregister or a broadcast that finds its queue full |
| HubModel.LogIsBroadcasts | internal/sessions/websocket.go:108-117 | the log that delivery is measured against is the run's broadcasts, in order |
| HubModel.DeliveryIsGapFree | internal/sessions/websocket.go:119-162 | what a client received and has queued is exactly the contiguous, ordered run of broadcasts to its user from its registration to its removal: no gap, nothing twice, nothing of anybody else's |
| HubModel.TakenInOrder | internal/sessions/websocket.go:119-164 | of these it has received the first ones, one for each time writePump found a message, and the rest, 64 at most, are queued |
| Hub.Client.TrySend | internal/sessions/websocket.go:120-127 | the non-blocking send queues the message unless 64 are queued; the channel has to be open |
| Hub.Client.CloseOnce | internal/sessions/websocket.go:105 | closes the channel if and only if that has not been done |
| Hub.Client.Drain | internal/sessions/websocket.go:150-164 | writePump takes the oldest queued message |
| Hub.Hub.Register | internal/sessions/websocket.go:80-87 | adds the client to its user's set, made if need be: the model's connect step |
| Hub.Hub.UnregisterLocked | internal/sessions/websocket.go:98-106 | removes the client and an emptied set, closes its channel once, and touches no other client |
| Hub.Hub.Unregister | internal/sessions/websocket.go:89-93 | the model's unregister step, also for a client that was already evicted |
| Hub.Hub.FanOut | internal/sessions/websocket.go:117-128 | the loop over a user's clients, in any order: each gets the message or, its queue being full, is remembered; no channel it sends on is closed |
| Hub.Hub.EvictAll | internal/sessions/websocket.go:129-131 | exactly the remembered clients are removed and closed |
| Hub.Hub.Broadcast | internal/sessions/websocket.go:108-138 | fan-out and eviction together are the model's broadcast step; the connections to close are those whose queue was full; an update that cannot be encoded does nothing |
| PoolEviction.PoolEvictions | web/wasm/sshclient/pool.go:31-73 | returns, in ascending order, exactly the keys of an order-free decision, so neither map iteration order nor sorting shows |
| PoolEviction.ProtectedStay | web/wasm/sshclient/pool.go:38-45 | the active key and live handshakes are never released |
| PoolEviction.SurvivorCount | web/wasm/sshclient/pool.go:55-69 | how many connections are left, exactly |
| PoolEviction.PoolFits | web/wasm/sshclient/pool.go:55-69 | at most max(cap, protected) are left; when the cap releases anything it stops exactly at the cap or with only protected ones left |
| PoolEviction.OldestGoFirst | web/wasm/sshclient/pool.go:55-68 | every key the cap releases precedes every idle one kept, in (lastActive, key) order |
| PoolEviction.SecondCallReleasesNothing | web/wasm/sshclient/pool.go:31-73 | asking again at the same time, after the removal, releases nothing |
| PoolEviction.CapEvictedIsPrefix | web/wasm/sshclient/pool.go:57-68 | the releases by rank are a first segment of the sorted list, of the length the cap asks for |
| PoolEviction.AscendingIsUnique | web/wasm/sshclient/pool.go:71-72 | an ascending list is fixed by its elements: the result cannot depend on how they were collected |
| PoolEviction.OnlyWhatMayStaySurvives | web/wasm/sshclient/pool.go:38-53 | read off the slots: what survives is the active one, connecting for less than 90 s, or connected and active less than idleAfter ago; the first two kinds always survive |
| PoolEviction.WhatFitsStays | web/wasm/sshclient/pool.go:38-69 | when what may stay so fits the cap, exactly that survives |
| PoolEviction.OtherwiseTheCapIsMet | web/wasm/sshclient/pool.go:55-69 | when it does not, exactly cap connections are left, or, being more, only the active one and live handshakes |
| PoolEviction.TheOldestGo | web/wasm/sshclient/pool.go:55-68 | and what had to go was active no later than what stays, with the lower key at equal times |
| Sorting.BeforeIsLexicographic | web/wasm/sshclient/pool.go:57-62 | the order of keys is that of their first different character, a prefix coming first |
| PoolEviction.Collect | web/wasm/sshclient/pool.go:40-53 | the loop over the pool sorts every connection into protected, released and kept, in any order |
| PoolEviction.TakeOldest | web/wasm/sshclient/pool.go:63-68 | the loop over the oldest appends exactly those |
| PoolEviction.PoolPending | web/wasm/sshclient/pool.go:77-87 | returns, ascending, exactly the keys that are connecting and not connected |
| PoolModel.ReleaseIdleIs | web/wasm/sshclient/client.go:1008-1016 | releasing in the order of poolEvictions' list is the model's step, whatever way that list was computed |
| PoolModel.DisconnectPendingIs | web/wasm/sshclient/client.go:1041-1051 | the same for the pending list |
| PoolModel.CloseConnIsSafe | web/wasm/sshclient/client.go:534-557 | tearing a record down closes its cancel channel and stdin at most once and keeps everything safe once the record is out of the pool |
| PoolModel.MakeActiveIsSafe | web/wasm/sshclient/client.go:996-1004 | switching the shown host keeps the pool safe |
| PoolModel.ConnectIsSafe | web/wasm/sshclient/client.go:261-296 | Connect's critical section, reusing or replacing, keeps the pool safe |
| PoolModel.DisconnectsAreSafe | web/wasm/sshclient/client.go:560-592 | each of the three disconnects keeps the pool safe, DisconnectAll in any map order |
| PoolModel.PublishIsSafe | web/wasm/sshclient/client.go:634-647 | publishing an opened session keeps the pool safe: the new channel is open and in one record, and no session is stored on a client it was not opened on; a channel that is replaced stays open and is in no record any more |
| PoolRuns.StepKeepsInv | web/wasm/sshclient/client.go:261-780 | every critical section of every goroutine, and every way its blocking calls can return, keeps the invariant |
| PoolRuns.RunKeepsInv | web/wasm/sshclient/client.go:261-1051 | so it holds in every state of every interleaving, from the empty pool |
| PoolRuns.ChannelsAreSafe | web/wasm/sshclient/client.go:534-557 | in every interleaving: nothing is sent on a closed channel, no stdin or cancel channel is closed twice, every stdin stored in a record is open and in one record only, and no cancelled record is in the pool |
| PoolRuns.OneAtATime | web/wasm/sshclient/client.go:689-707 | no two Exec goroutines hold one connection at the same time, and no two handshakes are past the semaphore |
| PoolRuns.SessionsMatchTheirClient | web/wasm/sshclient/client.go:607-648 | a session stored in a record was opened on the client that record has, if it has one |
| PoolRuns.PoolIsBounded | web/wasm/sshclient/client.go:1008-1034 | after every Connect, reusing or new, and every sweep the pool holds at most 3 records, or only the protected ones if those are more |
| PoolRuns.ReleaseBounds | web/wasm/sshclient/client.go:1008-1016 | the same of one release, from any safe state |
| PoolRuns.StampsAreLeftAt | web/wasm/sshclient/client.go:996-1004 | in every run the stamp of a background host is when the terminal last switched away from it |
| PoolRuns.LongestLeftGoesFirst | web/wasm/sshclient/client.go:996-1016 | so what the cap releases was left before every idle host that stays |
| PoolRuns.ActiveRecordStays | web/wasm/sshclient/client.go:560-592 | nothing but the explicit disconnects, or a Connect, takes the shown host's record away or switches from it |
| PoolRuns.ConnectShowsItsHost | web/wasm/sshclient/client.go:261-296 | after Connect its host is shown and pooled, on the old record exactly when that was reusable and on a new one otherwise |
| PoolFates.ChannelFates | web/wasm/sshclient/client.go:607-648 | in every run each stdin channel ever published is exactly one of: closed, once; open and stored, in one record; or overwritten by a session published on a record whose channel was still set, and then open and stored nowhere |
| PoolFates.LostIsOverwritten | web/wasm/sshclient/client.go:645-646 | the channels nothing can close any more are exactly those that were overwritten so |
| PoolFates.FailedStartThenExecLoses | web/wasm/sshclient/client.go:736-740 | every run that gets to where a published session is about to be started can be continued so that its channel is lost: the start fails, and another command is run there |
| PoolFates.AChannelCanBeLost | web/wasm/sshclient/client.go:650-780 | such a run exists for every host, from the empty pool: connect, a command that cannot be started, another command |
| PoolCommands.IdleStdinIsLeftBehind | web/wasm/sshclient/client.go:736-752 | in every run, a record on which no command holds `executing` has its stdin set exactly if the last command there could not be started and nothing has been published on it or torn down by closeConn since, and then stdin is that command's channel |
| PoolCommands.OverwritesWhatWasLeftBehind | web/wasm/sshclient/client.go:632-647 | so a command loses a channel as it is published if and only if the last command on that record could not be started, and it loses that one's |
| PoolCommands.LostExactlyAfterAFailedStart | web/wasm/sshclient/client.go:632-740 | over whole runs, a channel is open and stored nowhere, for good, if and only if at some point a command was published on a record whose last command could not be started and had left that channel |
| PoolLeftovers.RunRemoves | web/wasm/sshclient/client.go:534-592 | in every run a record is in the pool exactly until it is cancelled |
| PoolLeftovers.ClientsOutsideThePool | web/wasm/sshclient/client.go:456-462 | in every run the records outside the pool that hold a client are cancelled ones whose handshake ended after they were cancelled |
| PoolLeftovers.CancelledInBetween | web/wasm/sshclient/client.go:313-317 | and they were cancelled after that handshake last looked at the cancel channel |
| PoolLeftovers.OnlyTheirOwnEnd | web/wasm/sshclient/client.go:514-525 | such a connection stays outside the pool and loses its client only to its own keepalive or to the failing end of a command on it |
| PoolLeftovers.LeftOverWorksExactly | web/wasm/sshclient/client.go:340-344 | such a connection still has its transport, and so works, if and only if the handshake stored it after the cancellation; otherwise closeConn closed it under the handshake's hands |
| PoolLeftovers.LeavesOneOver | web/wasm/sshclient/client.go:313-462 | at whatever point past the last look at the cancel channel a host is left, a run of the undisturbed handshake leaves a connection over, with its transport exactly if the host was left before that was stored |
| PoolLeftovers.AConnectionCanBeLeftOver | web/wasm/sshclient/client.go:340-462 | for every host there is a run, from the empty pool, that leaves a working connection over: connect, disconnect while the handshake is dialing, let it finish |
| PoolLeftovers.ADeadOneToo | web/wasm/sshclient/client.go:440-462 | and one that leaves a dead connection over: disconnect while it negotiates |
| PoolPolicy.FieldsMean | web/wasm/sshclient/client.go:516-525 | in every run a record is connected exactly if it has a client, connecting exactly if it is not cancelled and its handshake has not ended, and has a session exactly if it has a stdin channel |
| PoolPolicy.SinceIsMadeAt | web/wasm/sshclient/client.go:290 | connectingSince is always the time of the Connect that made the record |
| PoolPolicy.ConnectKeepsTheLive | web/wasm/sshclient/client.go:251-281 | in every run, a Connect to a pooled host that has a client, or a handshake under way begun less than 90 s ago, keeps its record and starts nothing |
| PoolPolicy.ConnectReplacesTheDead | web/wasm/sshclient/client.go:251-296 | any other Connect leaves its host on a new record with a new handshake queued, and tears down what was there |
| PoolPolicy.SweepLeavesTheFresh | web/wasm/sshclient/pool.go:38-53 | after every sweep a background host is pooled only if its handshake is under way and was begun less than 90 s ago, or it has a client and the terminal left it less than 600 s ago |
| PoolPolicy.ThreeArePooled | web/wasm/sshclient/client.go:1008-1034 | after every Connect and sweep at most three are pooled, or only the shown host and handshakes begun less than 90 s ago |
| PoolPolicy.LongestLeftGoes | web/wasm/sshclient/client.go:996-1016 | what is forced out was left by the terminal no later than any background host that stays with its handshake done |
| PoolPolicy.DisconnectTakesOutOne | web/wasm/sshclient/client.go:560-578 | Disconnect takes out exactly that host, tears it down, and shows nothing if it was shown |
| PoolPolicy.DisconnectAllTakesOutAll | web/wasm/sshclient/client.go:581-592 | DisconnectAll, however the map is walked, empties the pool and shows nothing |
| PoolPolicy.DisconnectPendingTakesOutTheUnconnected | web/wasm/sshclient/client.go:1041-1051 | DisconnectPending takes out exactly the hosts without a client whose handshake is under way |
| PoolPolicy.SwitchingIsPreemptedSince | web/wasm/sshclient/client.go:669-747 | `switching` is set exactly if, since the last command on the record ended, another has found it running |
| PoolPolicy.FailureTearsDownUnlessPreempted | web/wasm/sshclient/client.go:742-773 | so a command whose session fails tears its connection down exactly if no other command has preempted it |
| PoolGoroutines.WhoGivesUpIsDone | web/wasm/sshclient/client.go:306-453 | a handshake that fails, or notices while it queues, before it dials or while it waits that its record was cancelled, never gives that record a client, whatever follows |
| PoolGoroutines.EveryClientIsProbed | web/wasm/sshclient/client.go:458-492 | in every run each client a record has is probed by exactly one keepalive that has not ended |
| PoolGoroutines.KeepaliveEndsExactly | web/wasm/sshclient/client.go:487-528 | a keepalive ends exactly when a tick finds its client replaced or gone or a probe fails, and then stays ended |
| PoolGoroutines.WaitsFor300Looks | web/wasm/sshclient/client.go:678-687 | in every run a command looks no more than 300 times for its predecessor to go |
| PoolGoroutines.GoesOnWhenFree | web/wasm/sshclient/client.go:678-694 | and it goes on exactly when nothing runs or it has looked so often |
| PoolGoroutines.PanicsExactly | web/wasm/sshclient/client.go:534-557 | what would be a panic in the sections that close or send: exactly a channel already closed |
| PoolGoroutines.ShownIsStamped | web/wasm/sshclient/client.go:996-1004 | the shown host, if pooled, is that of the latest Connect and its stamp is the time of that |
| SshClient.Client.CloseConn | web/wasm/sshclient/client.go:534-557 | the record torn down in place is the model's, with closing a closed channel ruled out by precondition |
| SshClient.Client.CloseSession | web/wasm/sshclient/client.go:543-546 | closes the stored session if there is one |
| SshClient.Client.ReleaseIdleConns | web/wasm/sshclient/client.go:1008-1016 | the loop over poolEvictions' keys is the model's release |
| SshClient.Client.MakeActive | web/wasm/sshclient/client.go:996-1004 | stamps the host that was shown and the one that is, as the model says |
| SshClient.Client.Connect | web/wasm/sshclient/client.go:261-296 | reuse, replacement, stamping and release are together the model's connect step |
| SshClient.Client.Disconnect | web/wasm/sshclient/client.go:560-578 | the model's disconnect step, also for a key that is not there |
| SshClient.Client.DisconnectAll | web/wasm/sshclient/client.go:581-592 | the loop over the map, in the order it happens to take, empties the pool as the model says |
| SshClient.Client.DisconnectPending | web/wasm/sshclient/client.go:1041-1051 | the model's step for the hosts still being set up |
| SshClient.Client.Sweep | web/wasm/sshclient/client.go:1022-1034 | one pass of the sweeper is the model's release |
| SshClient.Client.GiveUp | web/wasm/sshclient/client.go:321-328 | a handshake that fails only stops connecting |
| SshClient.Client.SetTransport | web/wasm/sshclient/client.go:340-344 | the transport is stored in the record |
| SshClient.Client.Establish | web/wasm/sshclient/client.go:458-462 | the client is stored and the record connected |
| SshClient.Client.Preempt | web/wasm/sshclient/client.go:669-676 | marks a running session as switching and closes it, and does neither when nothing runs |
| SshClient.Client.TryAcquire | web/wasm/sshclient/client.go:689-701 | check and set of `executing`: acquired exactly if nobody executes and there is a client |
| SshClient.Client.Publish | web/wasm/sshclient/client.go:634-647 | returns a fresh open channel, stored with the session, exactly if the client is still the one the session was opened on |
| SshClient.Client.Finish | web/wasm/sshclient/client.go:744-753 | closes the stored channel once and clears the session |
| SshClient.Client.Teardown | web/wasm/sshclient/client.go:763-773 | drops client and transport |
| SshClient.Client.Leave | web/wasm/sshclient/client.go:703-707 | releases `executing` |
| SshClient.Client.KeepaliveDead | web/wasm/sshclient/client.go:516-525 | tears down only if the client is still the one probed |
| SshClient.Client.SendInput | web/wasm/sshclient/client.go:873-882 | appends the input to the queue of the shown host's channel if there is one and it has room, and changes no other queue |
| SessionOrder.MergeReorder | web/src/lib/tags.ts:71-79 | on any two lists the loop fills the visible slots from the new order, left to right, and leaves every other slot; a slot is left undefined if and only if there are more visible slots than visible ids |
| SessionOrder.DistinctListsAreFilled | web/src/lib/tags.ts:67-79 | which never happens to a full list that names nobody twice |
| SessionOrder.MergeIsExact | web/src/lib/tags.ts:67-79 | for any permutation of the visible ids: filtering the merge gives exactly that order, hidden ids keep their slots, and the merge is a permutation of the full list |
| SessionOrder.DragMovesOneId | web/src/hooks/useDragReorder.ts:38-49 | the two splices put the dragged id where its target was; without it the two lists are the same |
| SessionOrder.DragReorder.Finish | web/src/hooks/useDragReorder.ts:38-49 | a new order is reported exactly when a listed id is dropped on another listed id, and is that one move; the refs are cleared in every case |
| SessionOrder.DragReorder.DragEnter | web/src/hooks/useDragReorder.ts:72-77 | the hovered id is remembered only while another one is dragged |
| SessionOrder.SortBySeqSorts | web/src/lib/session.ts:6-8 | the result is ascending and a permutation |
| SessionOrder.SortIsStable | web/src/lib/session.ts:6-8 | sessions with the same number keep their relative order |
| SessionOrder.SortedIsUnique | web/src/lib/session.ts:6-8 | an ascending list is the only ascending list of its elements, if no two share a number |
| SessionOrder.StableSortIsTheOnlyOne | web/src/lib/session.ts:3-8 | whatever numbers are shared, a list is the result exactly if it is ascending and keeps, for each number, the sessions with it in their order |
| SessionOrder.ShownByNumber | web/src/lib/session.ts:6-8 | read off the numbers, a session without one counting as 0, the result ascends |
| SessionOrder.SameIsLetterForLetter | web/src/lib/tags.ts:15 | two tags are the same ignoring case exactly if they are so letter for letter, a letter being the same as its other case |
| SessionOrder.ShownIds | web/src/lib/tags.ts:56-65 | with distinct ids, a session passes the tag filter exactly when its id is in the filtered list |
| SessionOrder.DragReorders | web/src/hooks/useDragReorder.ts:38-49 | a drag on the filtered list only permutes the visible ids |
| SessionOrder.StoredIsRenumbered | internal/db/queries.go:556-575 | after ReorderSessions a session reads back with its position in the merged list as its number, and nothing else reads back |
| SessionOrder.ReadBackIsRenumbered | internal/db/queries.go:556-575 | so whatever order the rows are read back in they are the renumbered sessions |
| SessionTags.AllTags | web/src/lib/tags.ts:17-28 | the loops list every tag in use once, ignoring case, in a spelling in use |
| SessionTags.EffectiveFilterShows | web/src/lib/tags.ts:53-65 | the saved filter shows the sessions with a wanted tag, or all of them if no wanted tag is in use |
| SessionTags.AnyListingFiltersAlike | web/src/lib/tags.ts:17-65 | so neither the order of the tag list nor which spelling was met first shows in what passes |
| SessionTags.DragSurvivesTheRoundTrip | internal/db/queries.go:556-575 | whatever filter is saved: filter, drag, merge, store with ReorderSessions, read the rows back in any order whatever, sort by seq, list the tags afresh and filter again: exactly the dragged order is shown and the full list is the merged one |
| SessionOrder.MergeOfADragListsAll | web/src/lib/tags.ts:67-79 | the merge of a drag lists exactly the sessions there are, hidden ones in their own slots |
| SeqModel.CreateAppends | internal/db/queries.go:275-286 | a new session gets the number after its user's largest, 0 if there is none, a revived one changes nothing, and numbers stay non-negative and distinct |
| SeqModel.ReorderIsSafeExactlyWithoutClash | internal/db/queries.go:556-575 | for any list whatever a reorder keeps numbers distinct if and only if no session it leaves out has a number it hands out; other users' sessions never change |
| SeqModel.RunsKeepNumbersDistinct | internal/db/queries.go:255-291 | over every run of creations, revivals, deletions and reorders without such a clash, from an empty table on, each user's numbers stay non-negative and pairwise distinct |
| SeqModel.NextNumberIsPastTheList | internal/db/queries.go:275-277 | by the pigeonhole principle the next number handed out is past any list of sessions still all there |
| SeqModel.StaleListIsSafe | internal/db/queries.go:551-575 | a list that misses every session created since it was shown still leaves all numbers distinct, as long as no listed session was deleted and this user applied no order but of that same list meanwhile |
| SeqModel.ReservedRun | internal/db/queries.go:255-575 | while such a list is out, under the same two conditions, its sessions stay and everything newer is numbered past it |
| SeqModel.DeletedThenCreatedClashes | internal/db/queries.go:544-575 | deleting a listed session and creating another while the list is out does make two numbers equal: a concrete run |
| SeqModel.NewerOrderThenStaleListClashes | internal/db/queries.go:556-575 | so does applying, while the list is out, an order that lists a session created since: a concrete run in which nothing is deleted and no reorder clashes but the stale one |
| SeqModel.ReorderStoresPositions | internal/db/queries.go:556-575 | each listed session gets its place in the list as its number, if none is listed twice |
| SessionTable.Sessions.SelectMax | internal/db/queries.go:275-277 | the scan finds the largest number of the user, or -1 |
| SessionTable.Sessions.CreateSession | internal/db/queries.go:255-291 | append or revive, as the model says |
| SessionTable.Sessions.DeleteSession | internal/db/queries.go:544-550 | removes that row only |
| SessionTable.Sessions.ReorderSessions | internal/db/queries.go:556-575 | the loop of updates in one transaction: the whole renumbering, or, if a statement or the commit fails, nothing |
| TunnelModel.BytesArriveInOrder | internal/ssh/proxy.go:77-169 | in every interleaving, chunking and failure: what the host is given is a prefix of what Write accepted, what Read returned plus what is buffered is a prefix of what the host sent, and control messages arrive in order on their own |
| TunnelModel.NothingIsMissing | web/wasm/sshclient/transport.go:72-98 | while a direction lasts every byte is delivered or at a known place, in order; with nothing in flight everything has been read |
| TunnelModel.UpKeeps | internal/ssh/proxy.go:77-135 | conservation towards the host is kept by every event: writes, frames, partial TCP writes, errors, cuts, and sends on a socket that the server has begun to close |
| TunnelModel.WritesAfterTheServersClose | web/wasm/sshclient/transport.go:174-189 | a concrete run: between the server's close and the close event Write accepts bytes that never arrive |
| TunnelModel.DownKeeps | internal/ssh/proxy.go:137-169 | conservation towards the browser is kept by every event, including a TCP read that returns bytes together with an error |
| TunnelModel.ControlKeeps | web/wasm/sshclient/transport.go:75-79 | text frames go to the control channel, in order, and never into the byte stream |
| TunnelModel.EofIsTheEnd | web/wasm/sshclient/transport.go:159-172 | Read reports the end only with an empty buffer and a closed transport, and after that no event ever gives it another byte |
| TunnelModel.ClosingLosesNothingBuffered | web/wasm/sshclient/transport.go:159-172 | after closing, reads of any sizes return what was buffered, whole and in order, and only then the end |
| TunnelModel.HistoryIs | web/wasm/sshclient/transport.go:174-189 | what counts as accepted, sent by the host and told by the server is exactly what the events of the run say |
| TunnelModel.TextsAreTakenInOrder | internal/ssh/proxy.go:96-111 | the browser's own text messages are taken off by the server in order, none skipped while the wire lasts |
| TunnelModel.EndsExactly | internal/ssh/proxy.go:77-212 | in every run the transport is closed exactly once Close was called or the close event came, and each server loop has returned exactly once a read or write of it failed or it saw that it should |
| TunnelModel.LoopsEndTogether | internal/ssh/proxy.go:77-169 | whenever one loop has returned the other has been told to |
| TunnelModel.ReadsUpTo4096 | internal/ssh/proxy.go:111-147 | each loop reads up to 4096 bytes at once |
| Tunnel.WSTransport.Receive | web/wasm/sshclient/transport.go:72-98 | binary data is appended to the buffer, text goes to the control channel |
| Tunnel.WSTransport.ReadWaiting | web/wasm/sshclient/transport.go:159-172 | Read waits for exactly as many callbacks as it takes until there is something to read or the end, and returns that |
| Tunnel.WSTransport.ReadInto | web/wasm/sshclient/transport.go:167-171 | after the wait: what is copied into the caller's array and what stays buffered are together what was buffered; the rest of the array is untouched |
| Tunnel.WSTransport.Write | web/wasm/sshclient/transport.go:175-189 | fails exactly when closed; otherwise one binary frame if the socket is open |
| Tunnel.WSTransport.CloseConn | web/wasm/sshclient/transport.go:192-204 | closes once |
| Tunnel.WholeOrPrefix | internal/ssh/proxy.go:113-133 | a message read to its end was delivered whole, any other in part, from its start, and then the proxy is done |
| Tunnel.TCPProxy.ForwardMessage | internal/ssh/proxy.go:113-133 | the loop over the reused buffer is the fold of the model's chunk step |
| Tunnel.TCPProxy.ProxyWebSocketToTCP | internal/ssh/proxy.go:77-135 | over any messages: TCP is given their binary bytes or a prefix of them, all of them if nothing broke, and the proxy ends up done |
| Tunnel.TCPProxy.ProxyTCPToWebSocket | internal/ssh/proxy.go:137-169 | one binary frame per successful read, in order, up to the first failure |
| Tunnel.SentCarriesTheData | internal/ssh/proxy.go:147-168 | those frames carry exactly the bytes that were read, and no text |
| Tunnel.TCPProxy.Cleanup | internal/ssh/proxy.go:195-212 | however often it is called the done channel is closed once and both connections are closed |
| FeedModel.StepKeepsInv | web/src/hooks/useSessionUpdates.ts:33-158 | mounting, unmounting, opening, messages, closing, retries, checks and forced reconnects each keep the invariant |
| FeedModel.NeverDeafNeverLeaking | web/src/hooks/useSessionUpdates.ts:33-158 | in every reachable state: mounted, there is a current socket or a pending retry and never both; unmounted, neither; no other socket is connecting or open |
| FeedModel.CheckReplacesExactlyTheQuiet | web/src/hooks/useSessionUpdates.ts:114-127 | a check changes anything if and only if the current socket is live and was silent for more than 45 s; the branch with neither socket nor timer is never taken |
| FeedModel.ClosesOfSupersededSockets | web/src/hooks/useSessionUpdates.ts:80-92 | the close of a superseded socket schedules nothing; that of the current one schedules one retry |
| FeedModel.MessagesComeFromTheCurrentSocket | web/src/hooks/useSessionUpdates.ts:57-78 | updates reach the page only from the current socket, and only while mounted |
| FeedModel.SilenceIsNoticed | web/src/hooks/useSessionUpdates.ts:114-133 | with checks at most 5 s apart no live socket has been silent for more than 50 s |
| FeedModel.SteadyFeedKeepsItsSocket | web/src/hooks/useSessionUpdates.ts:114-127 | gaps of 45 s or less never cost a socket its place, over any run in which nobody closes it, unmounts or forces a reconnect |
| FeedModel.HeardIsHeardAt | web/src/hooks/useSessionUpdates.ts:57-60 | the clock that decides about silence is that of the current socket's making, opening or latest message of any kind, heartbeats and garbage included |
| FeedModel.ErrorsAndClosesAreFinal | web/src/hooks/useSessionUpdates.ts:61-92 | after an error message or its close nothing more is heard from a socket, whatever follows |
| FeedModel.BackoffIs | web/src/hooks/useSessionUpdates.ts:89 | the delays are 1, 2, 4, 8 and from then on 15 seconds |
| FeedModel.AttemptCountsFailures | web/src/hooks/useSessionUpdates.ts:49-51 | the attempt counter is the number of closes in a row since a socket last opened or a reconnect was forced |
| FeedModel.RetryIsNear | web/src/hooks/useSessionUpdates.ts:89-91 | a pending retry is never more than 15 s away |
| SessionFeed.SessionUpdates.Connect | web/src/hooks/useSessionUpdates.ts:33-46 | makes a new current socket and clears the timer |
| SessionFeed.SessionUpdates.ForceReconnect | web/src/hooks/useSessionUpdates.ts:100-108 | drops the current socket, whose close is then ignored, and connects at once |
| SessionFeed.SessionUpdates.CheckLiveness | web/src/hooks/useSessionUpdates.ts:114-127 | the model's check |
| SessionFeed.SessionUpdates.Opens | web/src/hooks/useSessionUpdates.ts:48-55 | the model's open handler |
| SessionFeed.SessionUpdates.Brings | web/src/hooks/useSessionUpdates.ts:57-78 | stamps before looking at the message; only updates reach the page; an error message closes the socket |
| SessionFeed.SessionUpdates.Closes | web/src/hooks/useSessionUpdates.ts:80-92 | the model's close handler |
| SessionFeed.SessionUpdates.Mount | web/src/hooks/useSessionUpdates.ts:129-133 | the model's mount |
| SessionFeed.SessionUpdates.Unmount | web/src/hooks/useSessionUpdates.ts:145-157 | the model's unmount |
| QuickKeys.MacroRoundTrip | web/src/lib/quick-keys.ts:106-190 | a macro of any length over arrows, navigation and function keys, letters, digits and tab, with any modifiers, is read back from its bytes, each step in canonical form |
| QuickKeys.NamedKeysRoundTrip | web/src/lib/quick-keys.ts:131-148 | for arrows, navigation keys and F1 to F12 with any modifiers that is the macro itself, key names lowercased |
| QuickKeys.SameBytesExactlyWhenSameCanonically | web/src/lib/quick-keys.ts:106-190 | two such macros send the same bytes if and only if they are step by step the same in canonical form |
| QuickKeys.PrefixFree | web/src/lib/quick-keys.ts:106-167 | no readable key's bytes begin another's |
| QuickKeys.EscapeIsAmbiguous | web/src/lib/quick-keys.ts:122-123 | why escape is left out: Escape then b is Alt+b |
| QuickKeys.LiteralIsItsText | web/src/lib/quick-keys.ts:107-116 | a literal's text is read back from its UTF-8 bytes, and Enter adds exactly the byte 0x0d |
| QuickKeys.OtherKeysSendThemselves | web/src/lib/quick-keys.ts:158-166 | a key that is none of the named ones sends itself in lower case, after an escape byte with Alt |
| QuickKeys.AltPutsAnEscapeBefore | web/src/lib/quick-keys.ts:118-166 | Alt puts an escape byte before whatever is not sent as a sequence; Escape is that byte, and Ctrl with a letter the letter's place in the alphabet |
| QuickKeys.SentAsItIsExactly | web/src/lib/quick-keys.ts:131-166 | an unmodified key without a name of its own is sent as it is if and only if it is not the name of a property every object has; then it is ESC [ undefined and a zero byte |
| QuickKeys.AltShiftOIsAmbiguous | web/src/lib/quick-keys.ts:158-163 | why Alt+Shift+O is left out: with Shift+P after it, it is F1 |
| QuickKeys.CanonicalSendsTheSame | web/src/lib/quick-keys.ts:125-163 | a step and its canonical form send the same bytes |
| QuickKeys.Encode | web/src/lib/quick-keys.ts:180-190 | the loops over the parts and the result array give the concatenation of the steps' bytes |
| SigningModel.StepKeepsInv | internal/ssh/ca/signing.go:107-271 | certificate requests, both rounds, sweeps and disconnects of any number of connections keep the invariant of table, arrays and connections |
| SigningModel.Round2SignsTheLatestRequest | internal/ssh/ca/signing.go:238-272 | the bytes given to round 2 signing and aggregation are the TBS bytes of the connection's latest request, although the table shares and wipes that array, unless the session has expired since the lookup |
| SigningModel.HandlerAsOneStep | internal/ssh/ca/signing.go:217-272 | with the handler as one step, whatever passes the lookup is signed intact |
| SigningModel.SignedBytesExactly | internal/ssh/ca/signing.go:238-272 | in general the bytes are the latest request's exactly when no sweep of the run came later than the session's expiry, or they were all zeros |
| SigningModel.WipedExactlyBySweeps | internal/ssh/ca/session.go:157-172 | a session that was looked up and is about to be signed is in the table or swept, and its array is wiped exactly if a sweep came later than its expiry |
| SigningModel.Round1Parts | internal/ssh/ca/signing.go:149-213 | round 1 of the machine, split into what it does to the table and to the connection: what the handler is proved to do |
| SigningModel.Round2Parts | internal/ssh/ca/signing.go:217-278 | the two halves of round 2 of the machine, with nothing between them, are what the handler is proved to do |
| SigningModel.SweptBetweenLookupAndSigning | internal/ssh/ca/session.go:166-172 | such a run exists: a session looked up in its last second and swept in the next is signed as zeros |
| SigningModel.LookupFindsExactlyTheLive | internal/ssh/ca/session.go:121-132 | a lookup succeeds for exactly the sessions made, not deleted and not expired, whatever sweeps ran and whatever earlier lookups dropped |
| SigningModel.WhatIsWiped | internal/ssh/ca/session.go:30-40 | every array holds its TBS bytes or zeros; a session that left the table is wiped unless it had expired before that |
| SigningLog.LookupReadsTheLog | internal/ssh/ca/session.go:105-173 | in every run a lookup finds a session exactly while the messages leave one: requested, not ended by a failing round or its connection's leaving, and not later than its time; and finds the user, host, bytes and latest commitment the messages gave it |
| SigningLog.Round2GoesOnExactly | internal/ssh/ca/signing.go:217-246 | round 2 goes on to sign exactly if it names the session of the connection's latest request, some round 1 of the connection has succeeded (perhaps for an earlier session), and that session is still live; what it signs are the bytes of its request |
| SigningLog.EndedIsWiped | internal/ssh/ca/session.go:134-140 | what ends a session before it expires leaves zeros in its TBS and commitment arrays |
| Signing.SigningSession.ZeroSensitiveData | internal/ssh/ca/session.go:30-40 | the three loops zero the TBS, nonce and commitment arrays in place, whichever of them are one and the same |
| Signing.SessionManager.CreateSession | internal/ssh/ca/session.go:109-119 | adds a session that shares the caller's array |
| Signing.SessionManager.GetSession | internal/ssh/ca/session.go:121-132 | found exactly if there and not expired; an expired one is dropped with its arrays as they are |
| Signing.SessionManager.DeleteSession | internal/ssh/ca/session.go:134-140 | wipes and removes that session and touches no other array |
| Signing.SessionManager.UpdateSession | internal/ssh/ca/session.go:142-155 | the session takes over the nonce and commitment arrays, or an expired one is dropped, as the model says |
| Signing.SessionManager.Cleanup | internal/ssh/ca/session.go:157-172 | the loop over the map, in whatever order, wipes and removes exactly the expired sessions |
| Signing.OperationsKeepTheBond | internal/ssh/ca/session.go:105-173 | whatever anybody has the table do, a connection's array is as its latest request made it for as long as its session is in the table |
| Signing.SigningClient.HandleRequestCert | internal/ssh/ca/signing.go:105-134 | a fresh array is shared between the new session and the connection, and the connection is bound to it |
| Signing.SigningClient.HandleRound1 | internal/ssh/ca/signing.go:149-213 | every outcome of round 1, with the deletions its failures bring, is the model's, and the bond to the array is kept |
| Signing.SigningClient.HandleRound2 | internal/ssh/ca/signing.go:217-278 | what is signed, if anything is, is what the connection's latest request made; the table is the model's |
| HandleModel.TableIsExact | web/public/wasm_exec.js:147-175 | over any run of stores and matching finalizes: ids and live values are each other's inverse, free ids are distinct and in nobody's use, and every reference still held loads the value it was made for |
| HandleModel.CountsAreReferences | web/public/wasm_exec.js:313-323 | an id past the first seven is free exactly when no reference to it is held, and its count is how many are |
| HandleModel.StoreLoad | web/public/wasm_exec.js:134-195 | what is stored is what is loaded, but for the sign of zero |
| HandleModel.GoReadsTheType | web/public/wasm_exec.js:147-195 | in every run what Go reads off a stored slot, by its own rules for flags and predefined ids, is the JavaScript type of the value |
| HandleModel.GoMeansTheConstants | web/public/wasm_exec.js:485-503 | and Go's own references to null, true, false, zero, NaN, the global object and itself always mean those |
| HandleModel.StartKeepsInv | web/public/wasm_exec.js:485-503 | the initial tables fit together |
| HandleModel.Int64RoundTrip | web/public/wasm_exec.js:119-132 | reading back a written number gives it with its fraction cut off, if and only if it is not a negative fraction whose whole part is a multiple of 2^32; numbers too small for their 2^32-th part to be told from zero are read back right |
| HandleModel.MinusAHalfIsTornApart | web/public/wasm_exec.js:119-132 | such a number: -0.5 is read back as -2^32 |
| HandleModel.SafeIntegersRoundTrip | web/public/wasm_exec.js:119-132 | in particular every safe integer comes back |
| HandleTable.GoRuntime.StoreValue | web/public/wasm_exec.js:147-195 | the model's store, with the slot it writes |
| HandleTable.GoRuntime.LoadValue | web/public/wasm_exec.js:134-145 | the model's load |
| HandleTable.GoRuntime.FinalizeRef | web/public/wasm_exec.js:313-323 | the model's finalize: at zero the slot is cleared and the id goes to the pool |
| Base64.CredentialIDRoundTrip | internal/auth/enrollment.go:256-264 | any bytes come back from their unpadded base64url text and from their padded standard text, also when the first attempt can already read the latter |
| Base64.AttemptsAgree | internal/auth/enrollment.go:256-264 | any text that both attempts can read they read alike, so their order does not matter |
| Base64.FirstAttemptReadsStdText | internal/auth/enrollment.go:256-259 | the first attempt reads a standard text exactly when it needs no padding and neither of the two differing characters |
| Base64.Base64URLRoundTrip | web/src/lib/crypto/encoding.ts:1-23 | decodeBase64URL undoes encodeBase64URL, and decodeBase64 undoes encodeBase64 |
| Base64.EncodesRawText | web/src/lib/crypto/encoding.ts:10-14 | encodeBase64URL gives the unpadded text of the url alphabet, which the server decodes to the same bytes |
| Base64.AlphabetsAreTheStandards | internal/auth/enrollment.go:256-264 | the characters of the two alphabets are those of tables 1 and 2 of RFC 4648 |
| Base64.GroupIsBigEndian | web/src/lib/crypto/encoding.ts:1-8 | three bytes and their four sextets are the same 24-bit number |
| Base64.GroupByGroup | web/src/lib/crypto/encoding.ts:1-8 | groups of three are encoded one by one, a last short one as if followed by zero bytes, less the characters of those |
| Base64.BreaksAreSkipped | internal/auth/enrollment.go:256-264 | line ends in a credential id, and white space in what atob is given, make no difference wherever they are |
| Base64.AcceptsExactly | internal/auth/enrollment.go:256-264 | which texts without line ends each of the two attempts takes, exactly |
| Base64.AtobAcceptsExactly | web/src/lib/crypto/encoding.ts:1-23 | which texts without white space atob takes, exactly |
| Base64.DecodeURL | web/src/lib/crypto/encoding.ts:16-23 | the padding loop and atob compute the specified decoding, errors included |
| Base64.PadLoop | web/src/lib/crypto/encoding.ts:18-20 | the loop pads to a multiple of four |
| SessionFileModel.OrderMattersExactlyOnConflicts | internal/client/session.go:89-108 | the iteration order of the metadata map makes no difference if and only if no key comes both nested and flat with different values |
| SessionFileModel.StartRoundTrip | internal/client/api.go:238-245 | the shape sent at the start rebuilds the same file but for the record's id, name and start time, under any iteration order and for any extra keys, if and only if hostname and cwd are not empty where this host would fill them in; the very same file if and only if also the record has its id, name and start time |
| SessionFileModel.FirstStartRoundTrip | internal/sessions/handler.go:72-95 | after a first start that is so exactly for a start time of whole seconds, or, for the zero time, when the server's is |
| SessionFileModel.FractionIsLost | internal/db/queries.go:11 | a file started half a second past a full second comes back started at the full second |
| SessionFileModel.ResumeKeepsTheFirstStart | internal/db/queries.go:275-286 | a session started again comes back with its first start time, so as it was exactly if its file still has that |
| SessionFileModel.RebuiltIsStable | internal/client/session.go:49-87 | a rebuilt file, whatever metadata it was rebuilt from, started over its own record and rebuilt again is the same |
| SessionFileModel.UpdateRoundTrip | cmd/watch.go:141-149 | the flat update shape does so, in both senses, if and only if also no extra key has a reserved name |
| SessionFileModel.RebuiltFileSays | internal/client/session.go:49-108 | a rebuilt file in full, under any order: identity and start of the record, hostname and directory as given or else the host's own, and exactly the metadata's flat and nested extra keys, each with the text of a value given for it |
| SessionFileModel.StartShapeTellsTheFile | internal/client/api.go:36-43 | what is sent at the start determines the file and the text of its start time, and has extra keys exactly if the file has any |
| SessionFileModel.UpdateShapeTellsTheFile | cmd/watch.go:141-149 | an update determines the file but for its id, if no extra key has a field's name |
| SessionFileModel.ApplyAll | internal/client/session.go:89-108 | without such a conflict every order gives the order-free merge |
| SessionFile.SessionRecord.ApplyMeta | internal/client/session.go:89-108 | the loop over the map, in whatever order, is the fold of the switch, and without conflicts the order-free merge |
| SessionFile.SessionRecord.TakeNested | internal/client/session.go:98-103 | the inner loop adds every nested key |
| SessionFile.FromServer | internal/client/session.go:58-87 | base fields from the record, metadata applied if it parses, empty hostname and cwd filled in |

## Left out

- HTTP routing, JSON and YAML codecs, SQL text, JWT, WebAuthn, tmux, process spawning and real sockets: only row updates, decoded values and message sequences are modelled.
- FROST and elliptic-curve arithmetic: the rounds are opaque outcomes, and the model follows which bytes they are given. That round 2 follows round 1 of the same session is not assumed, because a new certificate request does not reset the signing state.
- `IncrementCertSerial`, `CanConnect`/`AddConnection`, the enrollment hub and pairing: each is several unlocked steps with no whole-run guarantee.
- The validation steps of `handleRequestCert` before the TBS bytes are made, which change no state kept here but the rate limiter's, which is modelled on its own.
- React rendering, themes, dialogs and clipboard; `previewSpec`, the Debouncer, CLI commands and configuration would only add easy members.
- Touches: one flusher, as the server starts it; two concurrent `Flush` calls are not modelled. The context and ticker of `Run` appear as events only.
- Pool: `Exec`'s 10 ms polling loop is a counted wait in `PoolRuns` and not a method; password and certificate callbacks appear only as outcomes of the handshake; `Resize` and the status and output callbacks are not modelled.
- Pool: `sort.Slice` and `sort.Strings` are a sorting function whose result is proved ascending and unique, not Go's algorithm. Saturation of time differences past 292 years is not modelled.
- Pool: the goroutine that drains a stdin channel is not modelled, only the channel.
- Throttle: the callback takes no time, and lastFired's zero value stands for never having fired.
- Session order: case-insensitive matching is modelled for ASCII letters, and the tag list is in the order met, not sorted by locale. Numbers are integers and never NaN.
- Tunnel: TLS, ping/pong deadlines and write deadlines appear as failures and cuts at any moment. The byte tunnel of one connection is modelled, not the number of connections.
- Session feed: a WebSocket constructor that throws, and an update handler that throws or reconnects from inside itself, are not modelled. The `reconnect` callback is not called before the first mount.
- Quick keys: names are lowercased for ASCII only, and text is sequences of Unicode scalar values, so lone surrogates do not occur.
- Handle table: numbers are reals. Of their arithmetic only a division by 2^32 occurs, whose underflow is modelled; infinities and NaN payloads are not modelled, memory is the slot at one address, and ids stay below 2^32 because JavaScript arrays do.
- Base64: Go's and the browser's decoders are modelled after their documentation, line ends and white space skipped and leftover bits ignored; the argument limit of `String.fromCharCode` is not.
- Session file: printing of JSON values that are not strings is an attribute of the value; strings that are not valid UTF-8 are not modelled.
