# The gateway's concurrent core, verified

The gateway keeps WebSocket connections of users on several devices, pushes messages of the
business backend to them, retransmits a message until the frontend acknowledges it, and
forwards what the frontends send. This project models the parts of it where state is shared,
and proves what they keep over whole runs, what they do not keep, and exactly when.

`dafny verify dfyconfig.toml` checks everything.

## How the code is modelled

**Retransmission** (`Retransmission*.dfy`). Any number of goroutines share the task map, the
`closed` flag, `totalTaskCnt` and the counter and timer pointer of every task. Each goroutine
(a `Handle` call with its deferred `Start`, a timer and the `run` it turns into, `Stop`,
`ClearByConn`, `Close`) is an agent with a program counter. A step is one map, atomic or timer
operation, or one push, of one agent; a run is any interleaving. The map is linearizable per
operation; a `Range` visits a key at most once, and visits every key that stays in the map
with its task. `AfterFunc` and the `Store` of the timer pointer are two steps, so `stop` sees
nil and stale pointers, and a timer may fire before its pointer is stored.
`RetransmissionInvariant`, `...Counts`, `...Slots`, `...History` and `...Safety` hold the
invariant, `RetransmissionRuns` its induction over runs, `RetransmissionTheorems` what follows
from it, `RetransmissionTargets` what a whole `Handle` call achieves, and
`RetransmissionDrain` the measure that makes runs come to rest. What can still happen once a
task is out of the map is stated over all continuations of a run, with exact conditions:
`RetransmissionRestarts` says who may start the key again, `RetransmissionPushes` what is
still sent, `RetransmissionCallbacks` what a stale callback can do, and `RetransmissionOrphans`
what `Task.stop` achieves. `RetransmissionOutcomes` says what a failed retransmission and
a returned ack mean for the rest of a run; `RetransmissionRaces` has a run for each of the cases where something
goes wrong. `RetransmissionManager` is the same code as objects whose fields are changed in
place: each method is proved to lead the machine from one state to another by a run of its
steps, so the theorems hold of the objects too, those about states and those about runs.

**Connection index** (`ConnTable.dfy`, `ConnRuns.dfy`, `ConnIndex.dfy`). `DeviceConns` and
`ConnManager` are classes, with each operation atomic. The specification, `ConnTable`, is a
two-level string-keyed table next to a plain map from user and device to connection, the two
counters, and the set of open connections. `ConnRuns` relates the two maps over all sequences
of operations. Every method is proved to change the whole table as its operation there does.

**Connection** (`ConnPipes.dfy`, `ConnPipesProofs.dfy`, `ConnPipesOutcomes.dfy`,
`ConnPipesRest.dfy`). Two buffered channels, the two loops
and every caller of `Close`, again one channel, socket or context operation a step. A write is
ok, a timeout or an error; a read is a payload, a timeout or an error. The retry strategy
grants `maxRetryCount` retries.

**Admission** (`Limiter.dfy`, `LimiterRuns.dfy`, `Admission.dfy`). The token bucket as an
object, then shared by callers and the growth goroutine; and the accept loop with its handler
goroutines, whose deferred functions are a stack.

**Deduplication** (`Dedup.dfy`, `DedupOutcomes.dfy`, `DedupHandler.dfy`). Concurrent deliveries over a store with an
atomic set-if-absent and a delete, entries that expire, and commands whose reply is lost before
or after they took effect. The clock is monotone. `DedupHandler` is the handler as an object
that follows this machine. The codec is an arbitrary partial function.

**Keys** (`Keys.dfy`). The string keys, with parsers that show what they determine.

## What does not hold

* An ack that arrives before the deferred `Start` has stored the task stops nothing; the
  message is retransmitted although it was acknowledged (`EarlyAckStopsNothing`). With the key
  out of the map after an ack, some continuation starts another task of it exactly when a
  `Handle` call may still store one (`AckIsOvertakenIff`). The message is retransmitted
  on some continuation exactly when that is so and `maxRetryCnt` is at least two, or a callback
  is past its look and below the limit (`AckedMessageIsResentIff`).
* `run` looks for its key, not for itself. A callback of a task that was removed can take
  another task out of the map on some continuation exactly when a callback of it is still to
  come or on its way, and the key is in the map or may still be stored by a `Handle` call
  (`StaleCallbackDropsIff`, with the runs `StaleCallbackDropsSuccessor` and
  `CallbackUnderWayDropsSuccessor`).
* `Task.stop` can find its pointer nil or stale, and then leaves an armed timer behind
  (`NilPointerLeavesOrphan`, `StalePointerLeavesOrphan`). `StopLeavesOrphanIff` says exactly
  when it can. As long as nobody starts the key again at most one more timer is armed, and
  it does nothing when it fires (`OneMoreTimer`).
* The deferred cleanup of a displaced connection removes and closes its successor, exactly when
  the successor is in the index and open (`CleanupClosesIff`, `CleanupClosesTheSuccessor`, and
  the same on objects: `DisplacedCleanup`).
* `RemoveUserConn` leaves its connections open, so a user can have two open ones on a device
  (`BulkLeavesTwoOpen`); of all operations only it, on a user with an open connection, breaks
  the rule that open connections are indexed ones (`KeepsOpenIndexedIff`).
* After `RemoveUserConn` a returning user is not counted. `userCnt` is the number of users
  exactly as long as no `NewConn` and no `RemoveUserConn` has met an empty entry
  (`CountersAgree`).
* `NewConfig` accepts steps for which the last sum of the growth loop wraps around; the limits
  hold on all runs exactly when it fits (`TokensBoundedIff`, `GrowthFollowsScheduleIff`,
  and one such configuration in `AcceptedStepWraps`).
* The comment of `Release` calls its full-bucket branch unreachable in theory. It is
  unreachable as long as growth is not started (`Admission.TokensConserved`); with growth it
  is reached on some run exactly when the initial capacity is below the maximum
  (`RefusalIsPossibleIff`, with the run `RefusedRelease`).
* The deduplication key has no user and no device: while one device's acknowledgement is
  cached, another's is dropped (`SecondDeviceIsDropped`, with the run `SecondAckIsDropped`).
  After a failure of the store the retry is dropped exactly when the message was cached before, or the lost command took effect,
  and the entry has not expired (`RetryAfterFailureIff`). In the second case no
  delivery of it reaches a handler for as long as the entry stands
  (`LostReplyLosesTheMessage`).

## Model

| member | source | states |
|---|---|---|
| Keys.DecimalParsesBack | internal/pkg/session/types.go:44-54 | the decimal form of every number parses back to it, consists of digits and has no leading zero |
| Keys.ConnKeyParsesBack | internal/pkg/session/types.go:48-50 | a connection key parses back to BID and UID |
| Keys.ConnKeyDeterminesUser | internal/pkg/session/types.go:48-50 | two users have the same connection key iff they agree on BID and UID |
| Keys.ConnIDParsesBack | internal/pkg/session/types.go:44-46 | a connection id parses back to BID, UID and device, whatever the device string |
| Keys.ConnIDInjective | internal/pkg/session/types.go:44-46 | two connections have the same id iff user and device are the same |
| Keys.TaskKeyParsesBack | internal/pkg/retransmit/manager.go:158-160 | a task key parses back to its four parts, for every message id including ids with colons |
| Keys.TaskKeyInjective | internal/pkg/retransmit/manager.go:158-160 | task keys are equal iff user, device and message id are |
| Keys.TaskKeyCollision | internal/pkg/retransmit/manager.go:158-160 | for arbitrary device strings, the exact condition under which two task keys collide |
| Keys.ColonInDeviceIsAmbiguous | internal/pkg/retransmit/manager.go:158-160 | a device with a colon would make two different connections share a task key |
| Keys.DevicesAreColonFree | internal/pkg/session/types.go:29-34 | the four device constants have no colon, so the keys in use are unambiguous |
| Keys.CacheKeyInjective | internal/ws/conn/lifecycle/handler.go:180-182 | deduplication keys are equal iff BID and message id are |
| Keys.CacheKeyParsesBack | internal/ws/conn/lifecycle/handler.go:180-182 | a deduplication key parses back to BID and message id |
| Keys.SessionKeyParsesBack | internal/pkg/session/types.go:52-54 | a session key is a fixed prefix and the connection key, and parses back to BID and UID |
| Keys.CacheKeyIsNoSessionKey | internal/pkg/session/types.go:52-54 | no deduplication key is a session key |
| RetransmissionTheorems.OneCallbackSource | internal/pkg/retransmit/manager.go:34-94 | in every reachable state a task has at most one agent that can lead to a callback, and exactly one while it is in the map |
| RetransmissionTheorems.TotalTaskCount | internal/pkg/retransmit/manager.go:127-132 | the counter is the size of the map minus starts between store and count plus deleters between delete and count; equal at rest |
| RetransmissionTheorems.CountedOnce | internal/pkg/retransmit/manager.go:187-194 | whoever removes it, a task is counted and uncounted at most once, and uncounted only when it is out of the map |
| RetransmissionTheorems.BoundedAttempts | internal/pkg/retransmit/manager.go:216-223 | on every run from NewManager a Handle call causes at most maxRetryCnt push attempts per target in all, three when it was given no positive number |
| RetransmissionTheorems.BoundedRetransmissions | internal/pkg/retransmit/manager.go:40-52 | on every run from NewManager the 32-bit counter never exceeds that limit, and a task retransmits at most one time less |
| RetransmissionTheorems.ExhaustedTasksSentAll | internal/pkg/retransmit/manager.go:40-52 | a task that ends by exhausting its retries was retransmitted exactly one time less than the limit given to NewManager, or two times by default |
| RetransmissionTheorems.FirstFirePushes | internal/pkg/retransmit/manager.go:40-55 | the first callback of a task pushes iff at least two attempts are allowed |
| RetransmissionOutcomes.FailedPushIsTheLast | internal/pkg/retransmit/manager.go:54-69 | after a retransmission that failed no further one of the task happens on any run |
| RetransmissionOutcomes.AckTakesTheKeyOut | internal/pkg/retransmit/manager.go:144-147 | when the Stop of an ack has returned, the key was out of the map at some moment since it was called |
| RetransmissionTargets.NoTargetForgotten | internal/pkg/message/downstream/backend_msg.handler.go:28-38 | when a Handle call has returned and the manager is open, there was for every target a moment during that call at which its key was in the map, also for those the push loop never reached |
| RetransmissionTheorems.AckRemovesItsOwnTask | internal/pkg/message/upstream/downstream_ack_handler.go:18-20 | an ack removes no task but the one of its user, device and message |
| RetransmissionTheorems.ClearRemovesItsOwnTasks | internal/pkg/retransmit/manager.go:167-175 | ClearByConn removes tasks of no other connection |
| RetransmissionTheorems.ClearSweeps | internal/pkg/retransmit/manager.go:167-175 | when ClearByConn returns, every task of the connection present at its start is out of the map |
| RetransmissionTheorems.CloseSweeps | internal/pkg/retransmit/manager.go:197-208 | when Close returns, whatever is in the map was inserted after its Range began |
| RetransmissionTheorems.LateTasks | internal/pkg/retransmit/manager.go:115-129 | after the swap of Close every inserted task is the one a start that had read closed as false stood before storing, and there are no more of them than of such starts |
| RetransmissionRestarts.OneMorePush | internal/pkg/retransmit/manager.go:36-79 | once a task is out of the map and no Handle call may still store its key, the key stays out on every run in which the message is not sent anew, and at most one more retransmission of the task happens |
| RetransmissionTheorems.RestMeansEmpty | internal/pkg/retransmit/manager.go:34-79 | when nothing can move any more the map is empty, nothing is armed, the counter is zero and every task was counted and uncounted once |
| RetransmissionTheorems.RunsComeToRest | internal/pkg/retransmit/manager.go:34-79 | without new targets, or after Close, the number of steps of any run is bounded |
| RetransmissionTheorems.CloseDrains | internal/pkg/retransmit/manager.go:197-208 | after Close, whatever calls come in, the steps of a run are bounded, and where it comes to rest the map is empty, nothing is armed and the counter is zero |
| RetransmissionTheorems.RestIsReachable | internal/pkg/retransmit/manager.go:34-79 | from every reachable state the goroutines, left to themselves, come to rest |
| RetransmissionDrain.ActDrops | internal/pkg/retransmit/manager.go:34-79 | every step of every agent lowers the measure of the work left |
| RetransmissionRuns.ReachableInv | internal/pkg/retransmit/manager.go:34-214 | the protocol invariant holds in every state any run reaches |
| RetransmissionRestarts.AckIsOvertakenIff | internal/pkg/retransmit/manager.go:144-147 | when an ack has left the key out of the map and the message is not sent anew, some continuation starts another task of the key iff a Handle call stands before storing it or will come to it with the manager open |
| RetransmissionPushes.AckedMessageIsResentIff | internal/pkg/retransmit/manager.go:36-61 | the acknowledged message is retransmitted on some continuation iff a callback is past its look and below the limit, or a Handle call may still store the key and maxRetryCnt is at least two |
| RetransmissionOrphans.StopLeavesOrphanIff | internal/pkg/retransmit/manager.go:82-94 | once Task.stop has returned a timer of the task is armed on some continuation iff a start or a callback was about to arm one, or timerPtr did not lead to the armed one or was about to be overwritten |
| RetransmissionOrphans.OneMoreTimer | internal/pkg/retransmit/manager.go:36-79 | after the removal at most one more timer of the task is armed, and a callback of it that then looks for its key changes nothing shared |
| RetransmissionRaces.NilPointerLeavesOrphan | internal/pkg/retransmit/manager.go:127-129 | a run in which stop finds nil while the timer is armed |
| RetransmissionRaces.StalePointerLeavesOrphan | internal/pkg/retransmit/manager.go:77-94 | a run in which stop finds the timer that has fired while the next one is armed |
| RetransmissionRaces.EarlyAckStopsNothing | internal/pkg/message/downstream/backend_msg.handler.go:28-38 | a run in which the ack comes before the deferred Start, and the message is retransmitted |
| RetransmissionCallbacks.StaleCallbackDropsIff | internal/pkg/retransmit/manager.go:36-79 | a callback of a removed task takes another task out of the map on some continuation iff one is still to come or on its way, and the key is in the map or may still be stored |
| RetransmissionRaces.StaleCallbackDropsSuccessor | internal/pkg/retransmit/manager.go:54-69 | a run in which a stale callback takes the task of a later message out of the map |
| RetransmissionRaces.CallbackUnderWayDropsSuccessor | internal/pkg/retransmit/manager.go:54-69 | a run in which a callback that found its own task takes the task of a later message out of the map |
| RetransmissionManager.Manager.constructor | internal/pkg/retransmit/manager.go:216-237 | a new manager is empty and open, allows three attempts if it is given no positive number and that number otherwise, and starts the machine |
| RetransmissionManager.Manager.StartOne | internal/pkg/retransmit/manager.go:115-132 | start registers, arms and counts one new task, unless closed or the key is taken |
| RetransmissionManager.Manager.Start | internal/pkg/retransmit/manager.go:109-113 | an open manager has a task for every target afterwards, has lost none, and every new task has an armed timer |
| RetransmissionManager.Manager.Run | internal/pkg/retransmit/manager.go:34-79 | a callback does nothing without its key; else it counts, pushes below the limit, and re-arms or removes the key |
| RetransmissionManager.Manager.StopTask | internal/pkg/retransmit/manager.go:82-94 | the timer that timerPtr leads to is not armed afterwards, and no other timer is touched |
| RetransmissionManager.Manager.StopAndDelete | internal/pkg/retransmit/manager.go:187-194 | removes the key, stops the timer its task points to and no other, uncounts exactly when it was there, and says so |
| RetransmissionManager.Manager.Stop | internal/pkg/retransmit/manager.go:144-147 | removes the one key of connection and message, and stops the timer its task points to and no other |
| RetransmissionManager.Manager.ClearByConn | internal/pkg/retransmit/manager.go:167-175 | keeps exactly the tasks of other connections and reports how many it removed |
| RetransmissionManager.Manager.Close | internal/pkg/retransmit/manager.go:197-208 | the first Close empties the map and closes; a second one changes nothing |
| RetransmissionManager.Manager.Handle | internal/pkg/message/downstream/backend_msg.handler.go:19-39 | pushes in order up to the first failure, then registers all targets and arms a timer for every new task |
| RetransmissionManager.Manager.TotalTaskCnt | internal/pkg/retransmit/manager.go:162-164 | between calls the counter is the number of tasks |
| ConnIndex.DeviceConns.Remove | internal/ws/conn/conn_manager.go:59-68 | takes out the connection of one device, if there is one, and leaves the others |
| ConnIndex.DeviceConns.FindAll | internal/ws/conn/conn_manager.go:78-87 | returns every connection of the entry once |
| ConnIndex.DeviceConns.Clear | internal/ws/conn/conn_manager.go:89-97 | empties the entry and returns how many connections it had |
| ConnIndex.ConnManager.FindConn | internal/ws/conn/conn_manager.go:263-274 | returns what the plain map holds for user and device |
| ConnIndex.ConnManager.FindUserConn | internal/ws/conn/conn_manager.go:276-283 | returns each connection under the user's key once and nothing else |
| ConnTable.OwnersConns | internal/ws/conn/conn_manager.go:276-283 | the connections under a user's key are those of that user and of no other |
| ConnIndex.ConnManager.RemoveConn | internal/ws/conn/conn_manager.go:217-248 | removes by key, closes the connection removed and no other, and updates both counters |
| ConnIndex.ConnManager.RemoveUserConn | internal/ws/conn/conn_manager.go:250-261 | drops the user's connections unclosed and leaves an empty entry |
| ConnIndex.ConnManager.StoreConn | internal/ws/conn/conn_manager.go:172-181 | adds the connection under its user's key and counts it |
| ConnIndex.ConnManager.NewConn | internal/ws/conn/conn_manager.go:125-157 | the displaced connection is closed, no other is, and the new one is in its place |
| ConnIndex.ConnManager.Displace | internal/ws/conn/conn_manager.go:130-141 | the old connection of user and device is out of the index and closed before the new one is created |
| ConnIndex.ConnManager.CloseConn | internal/ws/conn/conn.go:111-136 | closes the one connection and leaves the index and all others as they are |
| ConnIndex.ConnManager.Cleanup | internal/ws/server.go:192-201 | the deferred cleanup closes its own connection and the one in the index, takes that one out and touches nothing else; it closes another one iff an open successor has taken the place |
| ConnIndex.DisplacedCleanup | internal/ws/server.go:192-201 | on objects: a user connects twice from one device, the first handler cleans up, and the second connection is closed and gone from the index |
| ConnRuns.CleanupClosesIff | internal/ws/server.go:192-201 | a connection other than its own is closed by the cleanup iff it is open and in the index in its place |
| ConnRuns.CleanupClosesTheSuccessor | internal/ws/server.go:192-201 | after two NewConn and the cleanup of the first, no connection is open or in the index |
| ConnRuns.AtMostOneOpen | internal/ws/conn/conn_manager.go:130-149 | on every run without a bulk removal at most one connection of a user and device is open, and it is the one in the index; if no other Close happens, the indexed ones are all open |
| ConnRuns.KeepsOpenIndexedIff | internal/ws/conn/conn_manager.go:125-261 | an operation keeps the open connections among the indexed ones iff it is no RemoveUserConn of a user with an open connection |
| ConnRuns.NewClosesTheDisplaced | internal/ws/conn/conn_manager.go:125-157 | NewConn closes the connection it displaces, and only it, before it stores the new one |
| ConnRuns.BulkLeavesTwoOpen | internal/ws/conn/conn_manager.go:250-261 | after a RemoveUserConn a user can have two open connections on one device |
| ConnTable.LookupRefines | internal/ws/conn/conn_manager.go:159-170 | looking up in two levels is looking up in the plain map |
| ConnRuns.ApplyRefines | internal/ws/conn/conn_manager.go:125-261 | every operation on the two-level index is the operation on the plain map |
| ConnRuns.RunsRefine | internal/ws/conn/conn_manager.go:125-261 | over any sequence of operations the two-level index is the plain map, with both counters in step |
| ConnRuns.OthersUnchanged | internal/ws/conn/conn_manager.go:217-248 | an operation on one user changes no other user's entry, and neither opens nor closes another user's connection |
| ConnRuns.CountersAgree | internal/ws/conn/conn_manager.go:172-181 | on every run connCnt is the number of connections, and userCnt falls short of the number of users by the times an operation met an empty entry; it is right iff no NewConn and no RemoveUserConn met one |
| ConnRuns.DriftStep | internal/ws/conn/conn_manager.go:217-261 | users minus userCnt never falls, and rises by one iff NewConn or RemoveUserConn meets an empty entry |
| ConnRuns.ReturningUserIsNotCounted | internal/ws/conn/conn_manager.go:250-261 | after a bulk removal a returning user is indexed but not counted |
| ConnTable.EntriesAreUsers | internal/ws/conn/conn_manager.go:172-181 | there is one entry per user, and one more for each empty entry |
| ConnPipesProofs.SendIsFifo | internal/ws/conn/conn.go:82-92 | what is written is a prefix of what was accepted, each once, through all retries; Send returns nil only for an accepted payload |
| ConnPipesProofs.FailureEndsDelivery | internal/ws/conn/conn.go:138-158 | once a payload has failed for good nothing is written any more, and no write is attempted |
| ConnPipesOutcomes.SendLoopEndsIff | internal/ws/conn/conn.go:143-222 | the send loop ends iff it finds the context done, after a write error that is no timeout, or after a timeout of attempt maxRetry + 1 |
| ConnPipesOutcomes.WriteOutcome | internal/ws/conn/conn.go:181-220 | a successful write has written the payload; after an error that is no timeout nothing is attempted any more |
| ConnPipesOutcomes.TimeoutIsRetried | internal/ws/conn/conn.go:196-217 | after a write timeout before the last attempt, with the context not done, the same payload can be attempted again and written |
| ConnPipesOutcomes.OpenConnectionDelivers | internal/ws/conn/conn.go:143-158 | as long as the context is not done and the loop has not ended, everything accepted can still be written |
| ConnPipesOutcomes.RefusedMeansDone | internal/ws/conn/conn.go:82-92 | a Send returns an error only when the context is done |
| ConnPipesOutcomes.DoneRefusesSends | internal/ws/conn/conn.go:82-92 | once the context is done no Send returns nil any more |
| ConnPipesOutcomes.OpenSendReturnsNil | internal/ws/conn/conn.go:82-92 | as long as the context is not done and the send loop works, a waiting Send can enter its payload and return nil |
| ConnPipesProofs.ReceiveIsFifo | internal/ws/conn/conn.go:224-281 | the handler sees an in-order prefix of what was read; the channel is closed once and never sent on afterwards |
| ConnPipesOutcomes.ReceiveLoopLeavesIff | internal/ws/conn/conn.go:230-280 | the receive loop leaves for its deferred functions iff it finds the context done, or after a read error that is no timeout |
| ConnPipesOutcomes.LeavingEndsReading | internal/ws/conn/conn.go:224-280 | after that nothing is read or handed on any more |
| ConnPipesOutcomes.OpenConnectionReceives | internal/ws/conn/conn.go:230-280 | as long as the context is not done and the loop has not left, everything read and whatever comes next can still reach the handler |
| ConnPipesOutcomes.ReadTimeoutGoesOn | internal/ws/conn/conn.go:246-250 | in particular after a read timeout |
| ConnPipesProofs.CloseIsOneShot | internal/ws/conn/conn.go:111-136 | socket and session are closed at most once, exactly once when a Close has returned, and all callers get the same error |
| ConnPipesOutcomes.CloseReturnsBothErrors | internal/ws/conn/conn.go:111-136 | every Close returns the error of the socket followed by the error of the session, with the context done |
| ConnPipesOutcomes.DoneIff | internal/ws/conn/conn.go:116-122 | the context is done iff the parent was cancelled or the body of Close has got past its cancellation |
| ConnPipesOutcomes.CallsAreCounted | internal/ws/conn/conn.go:82-136 | the channels keep their sizes, and every call of Send and Close is accounted for |
| ConnPipesProofs.EndedLoopsHaveClosed | internal/ws/conn/conn.go:111-141 | when a loop has ended and no caller can move, every Close has returned and its body ran once |
| ConnPipesProofs.ReachableInv | internal/ws/conn/conn.go:82-281 | the invariant of pipes and closing holds in every reachable state |
| ConnPipesRest.ClosingIsBounded | internal/ws/conn/conn.go:111-281 | once the context is done the loops make at most seven more steps and every caller of Close at most seven, on every run |
| ConnPipesRest.ClosedAtRest | internal/ws/conn/conn.go:111-281 | where none of them can move any more, both loops have ended, the receive channel is closed, the body of Close ran once, and all are back from Close with one error |
| Limiter.NewConfigAccepts | internal/pkg/limiter/token_limiter.go:43-74 | NewConfig accepts exactly the valid configurations, and returns them unchanged |
| Limiter.ScheduleHolds | internal/pkg/limiter/token_limiter.go:104-116 | after k ticks the capacity is min(Init + k * Step, Max) when the last sum fits |
| Limiter.ScheduleBreaks | internal/pkg/limiter/token_limiter.go:111 | otherwise the capacity wraps around to a negative number |
| Limiter.AcceptedStepWraps | internal/pkg/limiter/token_limiter.go:43-74 | a configuration that NewConfig accepts and whose capacity is negative after one tick |
| Limiter.GrowthFollowsScheduleIff | internal/pkg/limiter/token_limiter.go:104-116 | the growth loop follows the schedule iff the last sum fits into 64 bits |
| Limiter.MaximumReached | internal/pkg/limiter/token_limiter.go:105-109 | the maximum is reached after exactly the rounded-up number of ticks, and the capacity never falls |
| Limiter.DefaultTakes96Ticks | internal/pkg/limiter/token_limiter.go:18-41 | the defaults reach their maximum after 96 ticks, as their comment calculates |
| Limiter.TokenLimiter.constructor | internal/pkg/limiter/token_limiter.go:164-188 | the bucket starts full |
| Limiter.TokenLimiter.Acquire | internal/pkg/limiter/token_limiter.go:132-139 | takes one token iff there is one |
| Limiter.TokenLimiter.Release | internal/pkg/limiter/token_limiter.go:142-152 | gives one token back iff the bucket has room |
| Limiter.TokenLimiter.Grow | internal/pkg/limiter/token_limiter.go:88-126 | for every accepted configuration, the growth loop ends at the capacity its additions lead to, having sent the tokens of its ticks; when the last sum fits, that is the scheduled capacity, and exactly the difference was sent |
| LimiterRuns.TokensBoundedIff | internal/pkg/limiter/token_limiter.go:104-152 | on all interleavings Init <= available + held <= capacity + sent this tick <= Max with every token accounted for, iff the last sum fits |
| LimiterRuns.AllReleasedFillsTheBucket | internal/pkg/limiter/token_limiter.go:142-152 | when all holders have released, exactly Init tokens are available, whatever was dropped |
| LimiterRuns.ReleaseDropsIff | internal/pkg/limiter/token_limiter.go:142-152 | a release is refused iff the bucket is full, which is when growth has replaced every token still held or refused |
| LimiterRuns.RefusedRelease | internal/pkg/limiter/token_limiter.go:142-152 | a run in which growth replaces a held token and its release is refused |
| LimiterRuns.RefusalIsPossibleIff | internal/pkg/limiter/token_limiter.go:142-152 | some run refuses a release iff the initial capacity is below the maximum |
| LimiterRuns.IdleLimiterDoesNotGrow | internal/pkg/limiter/token_limiter.go:113-115 | the growth goroutine sends a token only while one is held |
| LimiterRuns.HoldersFollowTheSchedule | internal/pkg/limiter/token_limiter.go:104-116 | the capacity is on the schedule, and callers never hold more than the next tick allows |
| LimiterRuns.OverTheMaximum | internal/pkg/limiter/token_limiter.go:111-115 | when the last sum does not fit, a run sends more tokens than the maximum |
| LimiterRuns.GrowthStopsIff | internal/pkg/limiter/token_limiter.go:94-109 | the growth goroutine has stopped iff it was cancelled or a tick found the maximum |
| LimiterRuns.MaximumIsReachable | internal/pkg/limiter/token_limiter.go:104-116 | when the last sum fits, a run with callers reaches the maximum |
| Admission.TokensConserved | internal/ws/server.go:99-157 | every token is in the bucket, with the accept loop or with one live handler; no release is ever refused |
| Admission.CapacityIsTheLimit | internal/ws/server.go:99-121 | live handlers and open sockets never exceed the capacity, and a connection is turned away iff that many handlers live |
| Admission.HandlersCleanUpInOrder | internal/ws/server.go:155-223 | on every way out a handler undoes exactly what the stage it reached has set up, once and in reverse order, the token last |
| Admission.EventsTellTheStage | internal/ws/server.go:155-255 | the stage a handler has reached is told by its successful upgrade, NewConn and OnConnect, and it returns iff one of them failed, a message found the connection closed, or the connection or the server ended |
| Admission.LoopExitsIff | internal/ws/server.go:99-148 | the accept loop ends iff accepting found the listener closed or it checked after the server was told to stop |
| Admission.LoopAcceptsNext | internal/ws/server.go:99-151 | as long as the server takes connections, the loop has not ended and fewer handlers live than the capacity, its next steps lead to an accepted connection |
| Admission.AtMostOneMore | internal/ws/server.go:99-105 | once told to stop, the server takes at most one more connection |
| Admission.ReturningHandlerFinishes | internal/ws/server.go:155-223 | a returning handler is gone after its deferred functions, and then its token is back |
| Admission.NothingHoldsUpTheCleanUp | internal/ws/server.go:155-223 | whatever else happens, a returning handler can always make its next clean-up step, and is gone with its token back after exactly as many as it has deferred |
| Admission.ServerRunsTheLimiter | internal/ws/server.go:99-157 | the calls that a run of the server makes of the limiter, an Acquire per attempt of the loop and a Release per failed accept and finished handler, are a run of the limiter that leads to the server's bucket |
| Dedup.DuplicateIff | internal/ws/conn/lifecycle/handler.go:74-95 | a message is dropped as a duplicate iff the same BID and message id was cached within the expiration and not uncached since |
| Dedup.AtMostOnce | internal/ws/conn/lifecycle/handler.go:76-95 | two deliveries of one message pass the gate only an expiration apart, unless it was uncached in between |
| Dedup.SecondDeviceIsDropped | internal/ws/conn/lifecycle/handler.go:180-182 | while a message id is cached, a second device's message with it never reaches a handler |
| Dedup.SecondAckIsDropped | internal/ws/conn/lifecycle/handler.go:76-95 | a run in which two devices acknowledge one message and the second acknowledgement is dropped |
| Dedup.OnlyFailedHandlersUncache | internal/ws/conn/lifecycle/handler.go:105-128 | only a handler that failed with an unknown message type or with exceeded retries uncaches; a message of an unknown type stays cached |
| DedupOutcomes.EventsTellTheOutcome | internal/ws/conn/lifecycle/handler.go:61-130 | what has become of a delivery is what its events say: rejected iff malformed, and which answer of the store, which handler and which error led to its result |
| DedupOutcomes.FailureUncachesIff | internal/ws/conn/lifecycle/handler.go:115-128 | after a handler failed a delete is sent iff its error wraps one of the two; otherwise the call returns the error at once |
| DedupOutcomes.UncachedMessagePasses | internal/ws/conn/lifecycle/handler.go:165-178 | once that delete has reached the store and nobody writes the key again, the next delivery of the message passes |
| DedupOutcomes.HandledMessageIsKept | internal/ws/conn/lifecycle/handler.go:76-128 | a message whose handler has not failed with one of the two stays cached: a retry is a duplicate while the entry is current and nobody else uncaches it |
| Dedup.HandledIsKnown | internal/ws/conn/lifecycle/handler.go:105-115 | a message reaches a handler only when its command has one |
| Dedup.HeartbeatsSkipTheStore | internal/ws/conn/lifecycle/handler.go:150-168 | heartbeats never touch the store and are never dropped |
| Dedup.RetryAfterFailureIff | internal/ws/conn/lifecycle/handler.go:76-95 | after a failure of the store the sender is told so, and its retry is a duplicate iff the message was cached before and still is, or the lost command took effect and has not expired |
| Dedup.LostReplyLosesTheMessage | internal/ws/conn/lifecycle/handler.go:76-95 | as long as the entry of a lost reply stands, no delivery of the message passes that had not passed before |
| Dedup.RunKeeps | internal/ws/conn/lifecycle/handler.go:61-182 | on every run the store holds exactly what was cached within the expiration and not deleted |
| DedupHandler.Handler.constructor | internal/ws/conn/lifecycle/handler.go:198-221 | the table maps each command to the last handler given for it |
| DedupHandler.Handler.CacheMessage | internal/ws/conn/lifecycle/handler.go:150-159 | sets the key if absent, except for heartbeats, and takes the step of the machine |
| DedupHandler.Handler.UncacheMessage | internal/ws/conn/lifecycle/handler.go:165-178 | deletes the key, except for heartbeats, and takes the step of the machine |
| DedupHandler.Handler.OnReceiveFromFrontend | internal/ws/conn/lifecycle/handler.go:61-130 | one call is one delivery of the machine; it says when the message is malformed, a duplicate or handled, and what the store holds afterwards |

## Left out

- Sockets, HTTP upgrade, WebSocket framing and compression: library behaviour; only the outcomes of reads, writes and closes appear.
- Kafka, Redis, JWT, OAuth, configuration and dependency injection: plumbing; the store is an atomic set-if-absent and delete with expiry, the push function an arbitrary outcome.
- The protobuf and JSON codecs: an arbitrary partial function.
- Wall-clock time: timers fire at any moment; only the deduplication store has a clock.
- `Shutdown`, `GracefulShutdown` and `consumeScaleUp`: unfinished in the source.
- `HandlerWrapper`, the gateway consumers, and the heartbeat and frontend message handlers: they forward what they get; their errors are an arbitrary outcome.
- The rate limiter of the receive loop, activity times and automatic closing: no decision of the modelled code depends on them.
- Interleavings inside one operation of the connection index: storing and removing are not atomic against each other in the source, and the claims about the index are for atomic operations.
- The order in which `findAll` and `Range` go through a map: any order.
- Concurrent callers of the objects in `RetransmissionManager` and `DedupHandler`: those objects are for one call at a time; concurrency is in the machines they follow.
- A `totalTaskCnt` beyond 64 bits, and two growth goroutines on one limiter: the source starts neither.
- Unbuffered send and receive channels: a channel of size 0 never accepts in `ConnPipes`.
- RetransmissionTheorems.RunsComeToRest: needs that pushes return, since a push is one step here.
- RetransmissionManager.Manager.ClearByConn: says nothing about timers beyond the steps of the machine it takes; nor does `Close` of that class.
- Limiter.TokenLimiter.Grow: runs alone, with an environment that makes room; `LimiterRuns` has the interleavings.
