# steamroids: a verified model of the session core

This project models the core of the `steamroids` Steam client in Dafny and proves what its
design promises over every input, every interleaving and every run: the session driver and
its reconnect loop, the inbound stream from WebSocket frame to subscriber, the snapshot
cache and its readers, the Game Coordinator pump, the proxy pool, the sign-in flow, the
connect search and the percent decoder.

`dafny verify dfyconfig.toml` checks everything.

## How the model is built

- **The driver twice.** `SessionModel` is the driver as a step machine: each arm of the
  source's `select!` loops is one event, and the socket, the clock and the callers choose
  which enabled event comes next. `SessionDriver.Driver` is the driver in its own form, an
  object whose loops and fields follow `run`, `run_connected` and `reconnect`; every method
  is proved equal to the step machine, so the theorems about runs are theorems about the
  object. `SessionRun.Spawn` puts the two together, and `SessionRun.LogonAndServe` puts the
  logon in front.
- **Theorems about runs.** `SessionDesk`, `SessionRouting`, `SessionSafety`, `SessionOnce`,
  `SessionIds`, `SessionStream`, `SessionSocket`, `SessionLogoff`, `SessionFrames`,
  `SessionAnswers`, `SessionLifecycle` and `SessionTiming` each hold one family of properties,
  proved per primitive, then per step, then for all runs.
- **From the outside.** What goes out is stated over what came in: `SessionFrames` and
  `SessionAnswers` say from the events alone which frames are written and how each command is
  answered, `PrintedStream` speaks of the messages a peer printed, and `GcPumpWire` of the
  messages a coordinator wrapped. Message types and result codes appear there as numbers, as
  they do on the wire.
- **History.** A command is known by its position in the order commands were taken, and
  keeps the list of everything sent on its one-shot; a slot reaped because the caller is gone
  is recorded as `Abandoned`. Each connection keeps what was written, read and routed on it.
- **Interleavings.** `Snapshots` splits `dispatch` into its two visible actions (cache
  insert, broadcast), so a reader can subscribe or look between them. `SnapshotRuns` shows
  that this is what runs of the driver do.
- **Foreign code** (protobuf, gzip, JWT decoding) is a record of functions. Where a round
  trip needs "decode undoes encode", that is the hypothesis `Inverse`, stated in the lemma.
- **Time** is in milliseconds. `SessionTiming` speaks of prompt runs: a timer that is due
  fires before anything later happens, and writes take no time. A frame arrives when it is read.
- **The environment is a script**: the sequence of arrivals, events or outcomes that a
  method consumes. Scripts are finite, so a loop may also end because its script does.

## What turned out to have a condition

- A frame carries its header length in 32 bits. Framing round-trips if and only if the
  header is shorter than 2^32 bytes (`Codec.FrameRoundTrip`).
- Job ids repeat. In every run a command gets at most one answer
  (`SessionSafety.AtMostOnce`). Every command gets its one answer if and only if no request
  draws an id that an open slot still holds (`SessionOnce.ExactlyOnceIff`): the new slot
  replaces the old one, whose one-shot is dropped unanswered for good
  (`SessionOnce.OrphanForever`). Nothing else depends on that: routing, connection isolation
  and the slot bounds are proved for every run. A run of up
  to 2^64 - 1 requests never does (`SessionIds.FewRequestsNeverReuse`); one more can
  (`SessionIds.ReuseIsReached`).
- The job counter reaches the id 2^64 - 1, which `dispatch` ignores
  (`SessionIds.SentinelIsReached`). A request's own reply finds its slot if and only if the
  request did not draw that id (`SessionIds.SentinelLosesReply`); one that did is answered
  all the same, but never with a message (`SessionIds.SentinelNeverReplied`).
- A decoded logoff need not end the session. One that reconnecting cannot heal ends it if and
  only if the driver takes it, as the head of the inbox or the first message of an arrival
  (`SessionLogoff.LogoffEndsIff`, `SessionLogoff.EndedByServerIff`). Still in the inbox when
  the connection drops, it is routed like any other message and the session reconnects
  (`SessionLogoff.DropRoutesInbox`, with the input in `SessionLogoff.TerminalLogoffMissed`).
- A reader that subscribed before a reconnect and read the cache after it can return the list
  of the logon before (`Snapshots.StaleSnapshotAcrossReconnect`, and as a run of the driver
  `SnapshotRuns.StaleSnapshotRun`). `SnapshotRuns.ReaderAnswersRuns` says exactly when it does
  not.
- The failure counters saturate at 2^32 - 1. A failure-only pool rotates exactly until every
  counter has saturated and hands out proxy 0 for ever after (`Pool.RotationBoundIsExact`).

Where code and comments differ, the code is followed. The outcome type's documentation says
`TokenRejected` also covers a refresh token that does not decode (src/auth/signin.rs:152-157);
the refresh flow returns the `AuthRejected` error exactly for such a token
(`SignIn.RefreshIff`), and only `execute_with_store` treats it as rejected.

## Model

| member | source | states |
|---|---|---|
| SessionRun.Spawn | src/session/driver.rs:517-582 | for every script of events, the driver object has ended exactly when its last published state is terminal, and then every command it ever took has had exactly one answer of its own kind if and only if no job id was drawn while in use, which up to 2^64 - 1 requests never happens |
| SessionRun.LogonAndServe | src/session/driver.rs:420-464 | from a fresh socket through logon, hand-over and a whole session: when the peer printed messages, the leaves it printed are, in order, what the logon took, what was routed, what is buffered and what is unread; a logon that never decides was sent nothing of type 751 or 757; the session serves under the SteamID, session id and heartbeat the logon answered with |
| SessionRun.RunSettles | src/session/driver.rs:517-582 | the same for every run of the step machine |
| SessionSafety.AtMostOnce | src/session/driver.rs:727-790 | in every run, however long: no command has two answers or an answer while its slot is open, none has two slots, each answer is of its command's kind, a slot is reaped silently only when its caller is gone, and nothing is open while the session is not connected |
| SessionOnce.ExactlyOnce | src/session/driver.rs:609-617 | in every run that draws no id in use, the open slots are exactly the unanswered requests, and while the session is not connected every command has had its one answer |
| SessionOnce.ExactlyOnceIff | src/session/driver.rs:609-617 | at the end of any run the books balance if and only if the run drew no id in use |
| SessionOnce.ReuseOrphans | src/session/driver.rs:616 | a run that draws a held id has a command without answer or slot at its end |
| SessionOnce.OrphanForever | src/session/driver.rs:609-617 | such a command never gets either again |
| SessionIds.FewRequestsNeverReuse | src/session/driver.rs:609-617 | a run of at most 2^64 - 1 requests draws no id twice |
| SessionIds.ReuseIsReached | src/session/driver.rs:609-617 | 2^64 requests left open do draw an id in use |
| SessionIds.NextJobIsFree | src/session/driver.rs:609-617 | until the counter wraps, the next job id is in no open slot, and it is a sentinel exactly at the last id |
| SessionSafety.EpochIsolation | src/session/driver.rs:696-706 | a message read on connection k completes only a request written on connection k under that job id, and is the first there to target it; open slots belong to the current connection; every frame carries its connection's SteamID and session id |
| SessionSafety.DropAnswersFirst | src/session/driver.rs:526-538 | in every run, at a drop, a request whose reply already sits in the inbox is answered with the first such reply, and only the others are told to retry |
| SessionFrames.FramesAreThoseAsked | src/session/driver.rs:592-638 | in every run, the frames written over all connections are, in order, exactly one for each request and notification taken while connected whose write succeeded, with its type and body, a reply id for a request only, type 706 for a logoff and 703 for a heartbeat, each under the ids of the logon in force, and no others |
| SessionAnswers.CommandsAreThoseTaken | src/session/driver.rs:592-619 | in every run the record holds the commands taken, in order; a notification is acknowledged with true if and only if it was taken while connected and its write succeeded, a logoff always is, and a request is refused at once when taken while down or when its write failed |
| SessionAnswers.RequestsSettled | src/session/driver.rs:585-651 | what every step of every run does to an open request: the message taken answers it if it targets its id; at a drop the first message left that does answers it, and otherwise it is told to retry; a stop or terminal logoff refuses it as stopped; a sweep reaps it once its caller is gone and times it out once its deadline has passed; nothing else answers it |
| SessionAnswers.GoneMeansHungUp | src/session/driver.rs:775-790 | in every run, a caller counts as gone exactly when an event said it dropped its end, and only its requests are reaped without an answer |
| SessionAnswers.ConnectedStep | src/session/driver.rs:585-651 | when a connected driver leaves its loop, event by event, and what it publishes then: after a failed write, a fatal arrival, a silence of max(6 heartbeats, 60 s) or a logoff of code 3, 20 or 48 it sleeps a second; after a stop or another logoff it has ended |
| SessionIds.JobIdCycle | src/session/driver.rs:609-612 | in runs of any length the next id is 1 plus the number of requests modulo 2^64 - 1 |
| SessionIds.SentinelLosesReply | src/session/driver.rs:847-852 | in every run, the reply to a request just written finds its slot if and only if the request did not draw the sentinel id |
| SessionIds.SentinelNeverReplied | src/session/driver.rs:847-852 | in every run, a request that drew it is refused, timed out or reaped, at most once, and never answered with a message; if no id in use was drawn, it is otherwise still open |
| SessionIds.SentinelIsReached | src/session/driver.rs:609-612 | the run of 2^64 - 2 requests that leaves the sentinel next in line |
| SessionSafety.StepSound | src/session/driver.rs:585-651 | every step keeps the whole books: slots, answers, routing and stamped frames |
| SessionSafety.RunSound | src/session/driver.rs:517-582 | every run keeps them |
| SessionDesk.SweepExact | src/session/driver.rs:775-790 | a sweep closes a slot if and only if its caller is gone or its deadline has passed, answers the two differently, and leaves every other slot as it was |
| SessionDesk.SweepPendingOk | src/session/driver.rs:775-790 | a sweep answers nobody twice and takes no answer back |
| SessionDesk.FailAllPendingOk | src/session/driver.rs:727-731 | failing everyone answers nobody twice and takes no answer back |
| SessionDesk.DeliverOk | src/session/driver.rs:847-852 | delivering a reply answers nobody twice and takes no answer back |
| SessionDesk.OpenSlotOk | src/session/driver.rs:609-617 | a new slot answers nobody twice and takes no answer back, even in place of an open one |
| SessionDesk.OpenSlotCompleteIff | src/session/driver.rs:609-617 | it leaves everyone unanswered with a slot if and only if its id is free |
| SessionDesk.Balance | src/session/driver.rs:727-790 | a command is open exactly while some slot holds it, then has no answer, and never has two; an answer is of its command's kind |
| SessionDesk.OneSlotEach | src/session/driver.rs:609-617 | no two slots hold the same command |
| SessionStream.EveryMessageRouted | src/session/driver.rs:526-538 | on each connection that dropped, every message decoded was routed once in wire order; with a transient server logoff, all but that message; on the live one, all that the inbox does not still hold |
| SessionSocket.SocketToSubscribers | src/session/connection.rs:369-388 | in every run and on every connection, however it ended: what the logon took, what was decoded since and what is unread is the whole flattened stream; what was decoded is the hand-over inbox and the flatten of the arrivals read; and all of it was routed in order but for the buffer and a logoff acted upon |
| SessionLogoff.LogoffEndsIff | src/session/driver.rs:620-626 | a step ends the session on the server's word if and only if the message it takes is of type 757 and its body does not carry code 3, 20 or 48 |
| SessionLogoff.EndedByServerIff | src/session/driver.rs:814-836 | a run ends that way if and only if some step of it takes such a message |
| SessionLogoff.LogoffStep | src/session/driver.rs:814-836 | a logoff taken reconnects if and only if its body decodes to code 3, 20 or 48; any other ends the session, published as undecodable if the body is, as code 2 if it carries none, and as its own code otherwise |
| SessionLogoff.DropRoutesInbox | src/session/driver.rs:526-538 | at a drop everything left in the inbox, logoffs too, is routed in order, to subscribers where it names no job, and the session reconnects |
| SessionLogoff.TerminalLogoffMissed | src/session/driver.rs:526-538 | the input: a terminal logoff waiting in the inbox is broadcast when a write fails, and ends the session when it is taken instead |
| SessionStream.CacheIsFirstPush | src/session/driver.rs:840-865 | at all times the cache holds, for each of the types 767, 5553 and 5587, the body of the first broadcast of the logon in force, and nothing else |
| SessionLifecycle.LifecycleLanguage | src/session/driver.rs:517-582 | published states of every run are LoggedOn (Connecting LoggedOn)*, then the tail that fits the phase, and ended sessions end in LoggedOff or, after Connecting, LoggedOff or Failed |
| SessionLifecycle.StopIsFinal | src/session/driver.rs:755-771 | in any phase, after an acked logoff or the drop of all handles there is no attempt, read or write, and LoggedOff is the last state |
| SessionLifecycle.EndIsFinal | src/session/driver.rs:556-582 | an ended driver changes nothing more |
| SessionLifecycle.FailedMeansRejected | src/session/driver.rs:661-721 | a run that publishes Failed had a rejected token as its last event |
| SessionLifecycle.GaveUpOnlyWhenRejected | src/session/driver.rs:661-721 | a step publishes Failed if and only if it is a rejected attempt |
| SessionLifecycle.BackoffSchedule | src/session/driver.rs:661-721 | attempt k after a drop starts no sooner than min(2^(k-1), 60) seconds after the previous attempt failed, or after the drop itself for the first, for every k |
| SessionLifecycle.SleepsSinceSetback | src/session/driver.rs:661-721 | the wait counts from the very event that dropped the connection or failed the attempt |
| SessionTiming.BackoffIsExact | src/session/driver.rs:661-721 | when timers fire as due the wait is exactly that long |
| SessionTiming.WatchdogSparesTheLiving | src/session/driver.rs:735-743 | a peer that answers each probe within five heartbeats is never declared dead, for every heartbeat of at least a second |
| SessionTiming.WatchdogCatchesTheDead | src/session/driver.rs:639-648 | a silent peer is disconnected no later than max(6 heartbeats, 60 s) plus one second after its last frame |
| SessionTiming.SlotsAreBounded | src/session/driver.rs:775-790 | while connected, no slot outlives the later of its taking and its deadline by more than a second |
| SessionTiming.TimersExact | src/session/driver.rs:627-648 | in every run, prompt or not: the next heartbeat is due one heartbeat after the last one written, the next sweep a second after the last one made, and the watchdog counts from the last frame of any kind |
| SessionDriver.Driver.constructor | src/session/driver.rs:420-464 | the object starts as the step machine's start state |
| SessionDriver.Driver.Dispatch | src/session/driver.rs:840-865 | the in-place routing does what the specification step does, and keeps the slots sound |
| SessionDriver.Driver.FailAllPending | src/session/driver.rs:727-731 | draining the map in any order answers each open request once |
| SessionDriver.Driver.SweepPending | src/session/driver.rs:775-790 | the retain loop, in any map order, yields the specified sweep |
| SessionDriver.Driver.SendFrame | src/session/driver.rs:793-808 | a written frame bears the current ids and nothing else changes |
| SessionDriver.Driver.TakeCommand | src/session/driver.rs:592-619 | the command arm equals the specified turn, including the write failures |
| SessionDriver.Driver.TakeArrival | src/session/driver.rs:620-626 | the read arm equals the specified turn for every kind of arrival |
| SessionDriver.Driver.Beat | src/session/driver.rs:627-638 | the heartbeat arm equals the specified turn |
| SessionDriver.Driver.SweepTick | src/session/driver.rs:639-648 | the sweep arm checks the watchdog before it sweeps |
| SessionDriver.Driver.AnswerWhileDown | src/session/driver.rs:755-771 | while down every command is answered at once and only a logoff stops the loop |
| SessionDriver.Driver.RunConnected | src/session/driver.rs:585-651 | the connected loop leads to the same final state as the step machine, from wherever it leaves |
| SessionDriver.Driver.Reconnect | src/session/driver.rs:661-721 | so does the reconnect loop, for each of its three ends |
| SessionDriver.Driver.Drain | src/session/driver.rs:526-538 | the drop-time drain routes the whole inbox in order |
| SessionDriver.Driver.RunSession | src/session/driver.rs:517-582 | the outer loop leads to the state the step machine reaches on the same events |
| Snapshots.RaceFree | src/friends.rs:326-361 | in every interleaving, the first push of the logon in force at the cache read was found by that read or is still to come through the subscription |
| Snapshots.CacheIsFirstOfLogon | src/session/driver.rs:545-548 | at every point of every interleaving the cache is exactly the first pushes since the last clear |
| SnapshotRuns.RaceFreeRuns | src/session/driver.rs:840-865 | the same for every run of the driver with a reader's actions interleaved anywhere in it |
| SnapshotRuns.ReaderAnswersRuns | src/friends.rs:326-361 | what a reader interleaved with any run of the driver answers: the logon's first push if it was cached, else the message it stops at, with the exact condition for that to be the push |
| SnapshotRuns.ReaderGetsSnapshotRuns | src/friends.rs:326-361 | with no reconnect between its subscribing and its look, exactly that push |
| SnapshotRuns.StaleSnapshotRun | src/session/driver.rs:526-555 | a run of the driver and a reader that gets the list of the logon before |
| SnapshotRuns.RunActs | src/session/driver.rs:526-555 | a run of the driver is a sequence of inserts, broadcasts and clears with the same cache and the same history |
| SnapshotRuns.ReaderIsInvisible | src/friends.rs:326-361 | taking a reader out of an interleaving changes nothing for the driver |
| Snapshots.ReaderGetsSnapshot | src/friends.rs:326-361 | with no reconnect between subscribing and reading, a reader that loses nothing returns exactly the full list first pushed |
| Snapshots.ReaderAnswersIff | src/friends.rs:326-361 | once the logon's first push is out, a reader answers with it if the cache had it; otherwise with the message it stops at, which is that push if and only if only deltas of its type reach it from an earlier logon |
| Snapshots.StaleSnapshotAcrossReconnect | src/friends.rs:326-361 | a concrete interleaving in which it returns the list of the logon before |
| Snapshots.RequestSnapshot | src/friends.rs:326-361 | the loop the readers share returns a full list that was in the cache or in a message of its type, or the first thing to stop the wait: a bad body, a closed channel, the deadline |
| Snapshots.RequestFriendsList | src/friends.rs:326-361 | the answer to the end: a cached list if there is one, else the first message of type 767 that decodes and is not incremental; an undecodable one, a closed channel and the deadline end the wait, and only they |
| Snapshots.RequestNicknames | src/friends.rs:426-458 | the same for type 5587, passing over removals too |
| Snapshots.RequestFriendsGroupsList | src/friends.rs:700-732 | the same for type 5553, passing over removals too |
| Codec.FrameRoundTrip | src/codec.rs:113-134 | decoding a printed frame gives back the type without its top bit, the header and the body, if and only if the header is shorter than 2^32 |
| Codec.UnframeRoundTrip | src/codec.rs:113-134 | every accepted frame prints back to the same bytes |
| Codec.UnframeCases | src/codec.rs:113-134 | which bytes are a legacy frame, which a protobuf frame and which an error, in terms of the bytes alone |
| Codec.PutPrefix | src/codec.rs:79-84 | the two words appended read back as the masked type with the flag set and as the header length modulo 2^32 |
| Codec.PrefixIsUnique | src/codec.rs:79-84 | no other eight bytes read back so |
| Codec.EncodeRaw | src/codec.rs:68-75 | what is encoded decodes back |
| GcEnvelope.WrapRoundTrip | src/gc/envelope.rs:55-93 | unwrapping a wrapped GC message gives the same app id, masked type, header and body, and the job it names unless that is one of the two sentinels |
| Multi.DecodeMulti | src/session/connection.rs:418-456 | the loop that advances a cursor and grows its output computes the recursive unpacking, and ends by depth then length although inflating grows the input |
| Multi.BatchRoundTrip | src/session/connection.rs:418-456 | every printed tree, raw or compressed at each level, unpacks to its leaves in order with legacy frames dropped when nested no deeper than the limit, and to an error for the whole batch otherwise |
| Multi.SpoiledBatchRejected | src/session/connection.rs:418-456 | a batch, raw or compressed, that holds after any printed members a truncated or an undecodable one is an error as a whole, whatever follows |
| Multi.BadPayloadRejected | src/session/connection.rs:460-473 | so is one whose body does not decode, whose compressed payload does not inflate cleanly, or whose declared or inflated size is over 8 MiB |
| Multi.UnpackIsFlat | src/session/connection.rs:418-456 | no batch envelope is ever among the messages unpacked, from any bytes |
| Multi.Gunzip | src/session/connection.rs:460-473 | no accepted payload inflates past the cap |
| Connection.CmConnection.ReadFrame | src/session/connection.rs:342-365 | each arrival moves its messages from unread to inbox, fails exactly on the fatal ones, and dates the last frame |
| Connection.CmConnection.ReadMessage | src/session/connection.rs:369-388 | messages returned, then the inbox, then the flatten of the unread frames stays the whole stream; a message is returned whenever one is left |
| Connection.CmConnection.Logon | src/session/connection.rs:247-306 | a failed send changes nothing; else the result is the verdict on the first logon response or logoff, ids change only on success, and the stream is conserved for the hand-over |
| Connection.LogonMeans | src/session/connection.rs:247-336 | what that verdict is, by number: types 751 and 757 decide; code 1 logs on with the ids of the header where it has them and a heartbeat of 9 seconds unless told, at least 1; codes 3, 10, 16, 20, 48 and 84 may be retried; every other code rejects the token |
| PrintedStream.LeafArrives | src/session/connection.rs:342-365 | a printed message that is not a batch is read as just that message |
| PrintedStream.LegacyArrives | src/session/connection.rs:342-365 | a printed legacy frame yields nothing and ends nothing |
| PrintedStream.BatchArrives | src/session/connection.rs:342-365 | a printed batch yields its leaves in order if it is nested no deeper than four, and ends the connection otherwise |
| PrintedStream.BadBytesArrive | src/session/connection.rs:342-365 | bytes that do not decode end the connection |
| PrintedStream.OthersArrive | src/session/connection.rs:342-365 | control frames yield nothing; a close, a text frame and the end of the stream end the connection |
| PrintedStream.EveryFrameTouches | src/session/connection.rs:342-365 | every frame, fatal or not, counts as a sign of life; only the end of the stream does not |
| PrintedStream.FlattenIsSaid | src/session/connection.rs:369-388 | for every script of printed messages and control frames, what is left of it after any position flattens to the messages still to be said, in order |
| Connection.FlattenIsFlat | src/session/connection.rs:369-388 | no batch envelope reaches a reader |
| Pool.NoStarvation | src/pool.rs:169-188 | a proxy that stays healthy is returned within n acquires, however the others' health changes in between |
| Pool.ExactRotation | src/pool.rs:169-188 | while the healthy set is fixed with h members, h acquires return each exactly once |
| Pool.AcquireTurnsRound | src/pool.rs:169-188 | an acquire takes the head of the round of healthy proxies and turns the round by one |
| Pool.FailuresStillRotate | src/pool.rs:211-225 | from a fresh pool with each acquire failing, the k-th returns k mod n and counts stay within one, through the switch to the least-failed fallback, for every threshold |
| Pool.SaturatedPoolSticks | src/pool.rs:211-225 | once all counters are saturated the pool returns proxy 0 always |
| Pool.RotationBoundIsExact | src/pool.rs:169-188 | where exactly the rotation by failures stops |
| Pool.ProxyPool.constructor | src/pool.rs:124-140 | a fresh pool has no failures and its cursor at the start |
| Pool.ProxyPool.Acquire | src/pool.rs:169-188 | nothing exactly when the pool is empty, else the first healthy proxy from the cursor or the leftmost least-failed one, and the cursor moves past it |
| Pool.ProxyPool.ReportSuccess | src/pool.rs:198-207 | clears that proxy's count only |
| Pool.ProxyPool.ReportFailure | src/pool.rs:211-225 | counts one more failure, saturating, on that proxy only |
| Pool.ProxyPool.HealthyCount | src/pool.rs:156-160 | is the size of the healthy set |
| Pool.ProxyPool.Status | src/pool.rs:229-252 | one entry per proxy, in order, healthy if and only if its count is below the threshold |
| Pool.DeadAfterExactly | src/pool.rs:198-225 | after a success and k failures the count is k, and the proxy is unhealthy from the threshold on and not before; the others keep theirs |
| Pool.PickMeans | src/pool.rs:169-188 | the choice is the healthy proxy nearest ahead of the cursor, and with none healthy the first with the fewest failures |
| GcPump.RunPump | src/gc/coordinator.rs:344-433 | the pump's loop over its locals computes the specified turns |
| GcPump.ReadinessAndBudget | src/gc/coordinator.rs:344-433 | readiness is what was last published, and holds exactly when a welcome came since the last reset; no retry is sent while ready; r resets allow at most 20(r + 1) retries |
| GcPump.ResetRearms | src/gc/coordinator.rs:344-433 | after a reset the next ticks each send a hello, up to twenty and no more |
| GcPump.ResetLeavesArmed | src/gc/coordinator.rs:344-433 | every reset leaves the pump in that state |
| GcPump.NoMissedReannounce | src/gc/coordinator.rs:370-383 | whenever the pump has seen everything and the state is a newer LoggedOn, a launch was attempted under it, though updates may coalesce; launches happen only when logged on |
| GcPump.OverIsFinal | src/gc/coordinator.rs:344-433 | once a channel has closed, the pump launches, retries, relays and publishes nothing more |
| GcPump.RelaysInOrder | src/gc/coordinator.rs:344-433 | subscribers get exactly this app's messages, once each and in order |
| GcPumpWire.ReceivedMeans | src/gc/coordinator.rs:393-429 | what any received message does, in terms of the GC message in its envelope: one for another app, or no envelope at all, changes nothing; type 4004 makes the pump ready, type 4009 that denies a session makes it unready and rearms it, and every message for this app is relayed, type masked |
| GcPumpWire.PumpMeans | src/gc/coordinator.rs:344-433 | over all runs and in the same terms: ready exactly when a welcome for this app came since the last reset; no retry while so; r resets allow at most 20(r + 1) retries; relayed are exactly the messages for this app, in order |
| GcPumpWire.EveryEventCarries | src/gc/envelope.rs:75-93 | those terms cover every event, an envelope without an app id counting as app 0 |
| GcPumpWire.WrappedCarries | src/gc/envelope.rs:55-64 | and what a coordinator wraps is what its message carries |
| ConnectSearch.Establish | src/session/connection.rs:144-179 | at most five servers, stopping at the first success or rejected token, which is the result, and else with the last error after all |
| ConnectSearch.EstablishResilient | src/session/driver.rs:471-494 | over any outcomes of up to four rounds: the first decisive outcome of all is the result, else the last error; at most twenty logons; waits double from one second |
| ConnectSearch.SearchAt | src/session/connection.rs:144-179 | the search ends at the first connection or rejected token, and otherwise at the last error |
| ConnectSearch.MetMeans | src/session/connection.rs:144-179 | what a failed discovery, an empty server list and each server's attempt count as; a sixth server is never tried |
| SignIn.ExecuteWithStore | src/auth/signin.rs:313-380 | at most one save; on success the store holds the returned token and all other accounts are untouched; a password builder never gets TokenRejected; the password flow is entered exactly when the store loads and holds no usable token |
| SignIn.PollForToken | src/auth/signin.rs:648-700 | the first poll in time that decides gives the result; at most ceil(120 / interval) calls, each in time and with the client id in force |
| SignIn.PollMeans | src/auth/signin.rs:669-697 | a poll decides if and only if its call failed or it brings a non-empty token, whose own SteamID is preferred to the session's |
| SignIn.DueMeans | src/auth/signin.rs:648-700 | poll k falls due after k intervals and everything the calls and sleeps before it took |
| SignIn.ClientIdIsLastHint | src/auth/signin.rs:704-706 | the client id in force is the last one hinted that is not zero, or the session's own |
| SignIn.CallsWithinBudget | src/auth/signin.rs:648-700 | calls within the budget number at most the rounded-up quotient, however long sleeps and calls take |
| SignIn.PollInterval | src/auth/signin.rs:710-724 | five seconds without a usable hint, one below a second, sixty above a minute, and within half a second of a hint in between |
| SignIn.PasswordFlow | src/auth/signin.rs:382-415 | case by case, by number: which answer of which call ends the flow and with what result, and that otherwise, a demanded guard code accepted or none demanded, the result is that of polling the begun session |
| SignIn.PasswordMeans | src/auth/signin.rs:486-646 | the same of the specified flow, with polling started from the session's own ids, interval and guards |
| SignIn.PasswordIssues | src/auth/webapi.rs:67-83 | no stage or poll answers TokenRejected; success only with a non-empty token issued to a poll made in time |
| SignIn.GuardMeans | src/auth/signin.rs:597-646 | a session is polled if and only if it asks for an authenticator code that the caller can produce and Steam accepts, or for no code at all; in every other case, the exact answer |
| SignIn.RefreshIff | src/auth/signin.rs:432-449 | success, with the token and its own SteamID, if and only if it decodes and has more than a minute left; the error if and only if it does not decode; rejected if and only if it decodes but is not usable |
| PercentDecode.Decode | src/transport/proxy.rs:314-334 | the index loop computes the recursive decoding |
| PercentDecode.HexNibble | src/transport/proxy.rs:336-343 | a byte is a hex digit if and only if it is a decimal digit or a letter a to f of either case, and has that value |
| PercentDecode.DecodeInvertsEncode | src/transport/proxy.rs:314-343 | decoding gives back the bytes for every choice of escaped bytes that includes the percent sign, in either hex case per digit |
| PercentDecode.IdentityIff | src/transport/proxy.rs:314-334 | decoding changes nothing if and only if there is no well-formed escape |
| PercentDecode.DecodedLength | src/transport/proxy.rs:314-334 | each escape shortens the text by exactly two bytes |

## Left out

- TCP, TLS, WebSocket, SOCKS5 and HTTP CONNECT input and output: the socket is a script of arrivals and write results.
- Protobuf, gzip, base64, RSA, HMAC and JSON themselves: functions with stated inverse laws.
- `src/auth/totp.rs`, `src/auth/jwt.rs`, `src/auth/rsa_pw.rs`: their results are inputs.
- `src/persona.rs`, `src/cs2.rs` and the one-shot requests of `src/friends.rs`: result mapping that adds only easy members.
- `src/session/discovery.rs`: the server list is an input.
- `wait_ready` and `request_matching` of the GC coordinator, and the launch `attach` makes once it has started the pump: short waits on the channels whose contents are modelled.
- Recovery of broadcast subscribers that lag: `RequestSnapshot` waits on past a lag, but the theorems about what a reader gets are for readers that lose nothing.
- Caller-side timeouts, capacity of the command queue and the close handshake: no effect on the driver's own state.
- Collecting guard types and the email hint from the confirmations of a begun session: the collected values are inputs.
- UTF-8 repair after percent decoding: the decoder is modelled on bytes.
- Error message text, logging and redaction.
- SessionTiming.WatchdogSparesTheLiving: assumes timers fire when due, since real scheduling delay belongs to the runtime.
- SessionDriver.Driver.RunSession: covers finite scripts of events, so it does not say that a session makes progress.
- SessionRun.LogonAndServe: follows the socket of the first connection, and holds where the driver's reads are that socket's; later connections log on inside an attempt, and `SessionSocket.SocketToSubscribers` covers their sockets.
