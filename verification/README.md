# Command queue: a Dafny model

This project models the command queue of the High-Mobility Android command-queue
library. The queue sits between an application and a vehicle link (BLE or
telematics). It keeps an ordered list of queue items. Only the head item is
ever in flight. The head is sent, retried on timeout up to a configured count,
completed by an ack or a matching response, or failed. A failure reports one
classified reason and purges the whole queue.

The model is functional. A queue is an immutable `QueueState`: the items, a
boolean for the periodic timeout check, the configured timeout, retry count and
command delay, and a `telematics` flag. The flag stands for the
`this instanceof TelematicsCommandQueue` test. Each entry point is a pure function
that returns a `Step`: the new state plus the listener calls it made, in order.
Those calls are `SendCommand`, `CommandReceived(command, item?)`, `CommandAck`
and `CommandFailed(failure)`. Time is an integer `now`, in milliseconds, passed
to every event that may send.

Modules:

- `Wrappers`: `Option`, standing in for nullable references.
- `Configuration`: the configurations of `QueueConfiguration.kt`.
- `QueueItems`: abstract commands and `QueueItem` with its two constructors.
  A command is an already-resolved record: identifier, type, length, a class
  tag, and whether it is a failure message naming some (identifier, type).
- `CommandQueue`: the delivery engine of `CommandQueue.java`.
- `BleCommandQueue`: the BLE queue, with its ack and link-error handling.
- `QueueInvariants`: the invariant and one preservation lemma per entry point.
- `QueueRuns`: sequences of events, the invariant over any run, one send per step, and first-in first-out order.
- `Retries`: how often a head is resent before it fails, and with which reason.
- `Scenarios`: concrete runs, including the telematics retry test.

The invariant `Inv` has three parts:

- no two items share an (identifier, type) signature;
- in a non-empty queue the head has a send time, the timer is running, the head
  has no failure response recorded, it has an error recorded only when its
  timeout flag is set, and its retry count is within the budget;
- every other item is untouched since construction.

All of this holds after any sequence of events that starts from a new queue.
It also shows that the periodic check's unguarded read of the head's send time
is safe.

Behaviours of the code that a reader may not expect:

- When the last item completes by an ack or a response, the queue does not stop
  the timer. The timer keeps running until the next periodic check finds the
  queue empty. `Scenarios.AckCompletesItem` shows this for an ack, and the
  response branch of `CommandQueue.OnCommandReceived` states it for a response.
- An item's timeout flag is set only by a retry after a timeout send failure
  (`CommandQueue.java` lines 162-165), and it is never cleared. A retry made by
  the periodic check does not set it. With a retry count of 0, a timeout send
  failure is therefore reported as `FailedToSend`. After a retry caused by a
  timeout send failure, a later hard error is reported as `Timeout`. When every
  retry so far was made by the periodic check, a later hard error is reported
  as `FailedToSend`.
- A failure message naming a command other than the head is dropped. Nothing is
  forwarded to the listener.
- `CommandQueue.java` reads `getCommandDelay()`, but the Kotlin configuration
  names that field `delayBeforeNextCommands`. Both are the configuration's
  `delay` field here.

## Model

| member | source | states |
|---|---|---|
| `Configuration.DefaultConfiguration` | src/main/java/com/highmobility/commandqueue/QueueConfiguration.kt:14-18 | timeout, retry count and delay all default to 0 |
| `Configuration.BleQueueConfiguration` | src/main/java/com/highmobility/commandqueue/QueueConfiguration.kt:20-24 | the effective timeout is the given timeout plus the link's command timeout; retry count and delay pass through unchanged |
| `Configuration.TelematicsQueueConfiguration` | src/main/java/com/highmobility/commandqueue/QueueConfiguration.kt:29-32 | the timeout is 120000 ms; retry count and delay pass through unchanged |
| `Configuration.TelematicsTimeoutIsFixed` | src/main/java/com/highmobility/commandqueue/QueueConfiguration.kt:29-32 | the telematics timeout is the same whatever the arguments |
| `QueueItems.NewItem` | src/main/java/com/highmobility/commandqueue/QueueItem.java:56-59 | a new item keeps the command and response class unchanged and has no info; it is pristine: retry count 0, no send time, no failure, no error, timeout flag false |
| `QueueItems.NewItemWithInfo` | src/main/java/com/highmobility/commandqueue/QueueItem.java:61-65 | the same as the two-argument constructor, but it also keeps the given info |
| `QueueItems.ConstructorsAgree` | src/main/java/com/highmobility/commandqueue/QueueItem.java:56-65 | the two constructors differ only in the info field |
| `CommandQueue.NewQueue` | src/main/java/com/highmobility/commandqueue/CommandQueue.java:57-63 | a new queue copies timeout, retry count and delay from its configuration; it starts empty with no timer |
| `CommandQueue.IsSameCommand` | src/main/java/com/highmobility/commandqueue/CommandQueue.java:131-134 | two commands are the same exactly when their (identifier, type) signatures are equal |
| `CommandQueue.TypeAlreadyQueued` | src/main/java/com/highmobility/commandqueue/CommandQueue.java:123-129 | true exactly when some queued item's command has the same signature as the given command |
| `CommandQueue.StartTimer` | src/main/java/com/highmobility/commandqueue/CommandQueue.java:191-196 | the timer runs afterwards; items and settings are unchanged |
| `CommandQueue.StopTimer` | src/main/java/com/highmobility/commandqueue/CommandQueue.java:198-203 | the timer runs afterwards exactly when it ran before and the queue is not empty |
| `CommandQueue.Purge` | src/main/java/com/highmobility/commandqueue/CommandQueue.java:82-85 | always leaves an empty queue with the timer stopped and the settings unchanged |
| `CommandQueue.SendItem` | src/main/java/com/highmobility/commandqueue/CommandQueue.java:136-153 | sends nothing and changes nothing when the queue is empty or the head already has a send time; otherwise sends only the head's command, stamps the head with `now`, leaves the other items alone and runs the timer |
| `CommandQueue.EnqueueItem` | src/main/java/com/highmobility/commandqueue/CommandQueue.java:72-76 | accepted exactly when no queued item has the same signature; a refusal changes nothing; an acceptance appends exactly one item at the end, and sends it at once only when the queue was empty |
| `CommandQueue.Queue` | src/main/java/com/highmobility/commandqueue/CommandQueue.java:71-77 | accepted exactly when the signature is not yet queued; a refusal changes nothing and sends nothing; on acceptance the item is appended behind every earlier item, the items behind the head are kept, a head in flight is left alone, and on an empty queue the command is sent at once |
| `CommandQueue.Classify` | src/main/java/com/highmobility/commandqueue/CommandQueue.java:176-183 | reason precedence: a failure response gives `FailureResponse`; otherwise an error without the timeout flag gives `FailedToSend`; otherwise `Timeout` |
| `CommandQueue.FailItem` | src/main/java/com/highmobility/commandqueue/CommandQueue.java:172-189 | on a non-empty queue, reports exactly one failure for the head, with the head's failure response and error and the classified reason; afterwards the queue is empty and the timer stopped; on an empty queue it does nothing |
| `CommandQueue.CompleteHead` | src/main/java/com/highmobility/commandqueue/CommandQueue.java:113-114 | removes the head, keeps the rest in order, and sends the next item if it is unsent; the timer is untouched when nothing is left |
| `CommandQueue.OnCommandReceived` | src/main/java/com/highmobility/commandqueue/CommandQueue.java:87-121 | on an empty queue: forwards the command with no item. A failure message naming the head: records it and fails the head with `FailureResponse`, emptying the queue. A failure message naming anything else: no change and nothing forwarded. A regular command longer than 2 that is telematics or of the head's response class: reported with the head item, then the head is completed; the resulting state, timer included, is exactly that of completing the head. Any other command: forwarded with no item, no change |
| `CommandQueue.OnCommandFailedToSend` | src/main/java/com/highmobility/commandqueue/CommandQueue.java:155-170 | an empty queue or a command other than the head: no change. A timeout with the head's retries below the retry count: records the error, sets the timeout flag, increments the retries and resends the head. Otherwise: the head fails with the error recorded and the queue is emptied |
| `CommandQueue.SendCommandAgainIfTimeout` | src/main/java/com/highmobility/commandqueue/CommandQueue.java:207-226 | on an empty queue the timer stops. When `now - timeSent > timeout`, the head loses its send time and gains a retry; past the retry count it fails, otherwise it is resent at `now`. An unexpired head changes nothing. An unsent head throws, and the periodic task ends |
| `BleCommandQueue.DefaultBleConfiguration` | src/main/java/com/highmobility/commandqueue/BleCommandQueue.java:63-65 | the default BLE queue uses 45000 ms on top of the link timeout, 3 retries and no delay |
| `BleCommandQueue.NewBleQueue` | src/main/java/com/highmobility/commandqueue/BleCommandQueue.java:71-73 | a BLE queue starts empty, is not a telematics queue, and copies its configuration |
| `BleCommandQueue.QueueWithResponse` | src/main/java/com/highmobility/commandqueue/BleCommandQueue.java:82-88 | refused with no change on a duplicate signature; otherwise appends one item carrying the command and the given response type, with no info, behind every earlier item, keeps the items behind the head and a head in flight, and sends the command at once on an empty queue |
| `BleCommandQueue.QueueWithInfo` | src/main/java/com/highmobility/commandqueue/BleCommandQueue.java:98-104 | refused with no change on a duplicate signature; otherwise appends one item carrying the command, the response type and the info unchanged, behind every earlier item, keeps the items behind the head and a head in flight, and sends the command at once on an empty queue |
| `BleCommandQueue.OnCommandSent` | src/main/java/com/highmobility/commandqueue/BleCommandQueue.java:111-124 | an ack for the head is reported. A head with no response class is then completed; a head with a response class stays, and nothing else changes. An empty queue or a non-head command: no ack and no change |
| `BleCommandQueue.OnLinkCommandFailed` | src/main/java/com/highmobility/commandqueue/BleCommandQueue.java:131-134 | a failure of the head's command is retried exactly when the link error is `TimeOut` and retries remain: the head's command is resent, the head records the link error, is flagged as timed out, gains one retry and is stamped with the new send time, and the timer runs. Otherwise the head fails once, with the link error recorded and the reason classified (`Timeout` exactly when the head was already flagged, when it has no failure response), the queue is emptied and the timer stops. A failure of any other command, or on an empty queue, changes nothing. The settings never change |
| `QueueInvariants.NewQueueSatisfiesInv` | src/main/java/com/highmobility/commandqueue/CommandQueue.java:57-63 | a new queue satisfies the invariant |
| `QueueInvariants.PurgeEstablishesInv` | src/main/java/com/highmobility/commandqueue/CommandQueue.java:82-85 | a purged queue satisfies the invariant |
| `QueueInvariants.EnqueueItemPreservesInv` | src/main/java/com/highmobility/commandqueue/CommandQueue.java:71-77 | enqueuing a pristine item keeps the invariant, so signatures stay distinct and only the head is in flight |
| `QueueInvariants.CompleteHeadPreservesInv` | src/main/java/com/highmobility/commandqueue/CommandQueue.java:113-114 | removing the head and sending the next item keeps the invariant |
| `QueueInvariants.OnCommandReceivedPreservesInv` | src/main/java/com/highmobility/commandqueue/CommandQueue.java:87-121 | a received command keeps the invariant |
| `QueueInvariants.OnCommandFailedToSendPreservesInv` | src/main/java/com/highmobility/commandqueue/CommandQueue.java:155-170 | a send failure keeps the invariant, including the retry budget of the head |
| `QueueInvariants.SendCommandAgainIfTimeoutPreservesInv` | src/main/java/com/highmobility/commandqueue/CommandQueue.java:207-226 | the periodic check keeps the invariant |
| `QueueInvariants.OnCommandSentPreservesInv` | src/main/java/com/highmobility/commandqueue/BleCommandQueue.java:111-124 | an ack keeps the invariant |
| `QueueInvariants.TickStopsTimerOnlyWhenEmpty` | src/main/java/com/highmobility/commandqueue/CommandQueue.java:207-226 | under the invariant the head's send time is set whenever the periodic check reads it, and the check stops the timer only on an empty queue |
| `QueueInvariants.TickFailureIsTimeout` | src/main/java/com/highmobility/commandqueue/CommandQueue.java:213-219 | under the invariant every failure raised by the periodic check has reason `Timeout` |
| `QueueRuns.ApplyPreservesInv` | src/main/java/com/highmobility/commandqueue/CommandQueue.java:71-226 | every entry point keeps the invariant |
| `QueueRuns.RunPreservesInv` | src/main/java/com/highmobility/commandqueue/CommandQueue.java:123-153 | the invariant holds after any sequence of events from a valid queue |
| `QueueRuns.NewQueueRunKeepsInv` | src/main/java/com/highmobility/commandqueue/CommandQueue.java:57-63 | the invariant holds after any sequence of events from a new queue |
| `QueueRuns.EnqueueIsSingleFlight` | src/main/java/com/highmobility/commandqueue/CommandQueue.java:71-77 | an enqueue hands at most one command to the transport, and only the one then at the head |
| `QueueRuns.ReceivedIsSingleFlight` | src/main/java/com/highmobility/commandqueue/CommandQueue.java:87-121 | a received command hands at most one command to the transport (the next head after a completion), never another |
| `QueueRuns.FailedToSendIsSingleFlight` | src/main/java/com/highmobility/commandqueue/CommandQueue.java:155-170 | a send failure resends at most one command, the head |
| `QueueRuns.TickIsSingleFlight` | src/main/java/com/highmobility/commandqueue/CommandQueue.java:207-226 | the periodic check resends at most one command, the head |
| `QueueRuns.AckIsSingleFlight` | src/main/java/com/highmobility/commandqueue/BleCommandQueue.java:111-124 | an ack hands at most the next head to the transport |
| `QueueRuns.ApplyIsSingleFlight` | src/main/java/com/highmobility/commandqueue/CommandQueue.java:136-153 | every entry point hands at most one command to the transport, and that command is the one at the head of the queue afterwards |
| `QueueRuns.EnqueueKeepsOrder` | src/main/java/com/highmobility/commandqueue/CommandQueue.java:71-77 | an enqueue either leaves the order of queued commands as it was or appends one command at the back |
| `QueueRuns.ReceivedKeepsOrder` | src/main/java/com/highmobility/commandqueue/CommandQueue.java:87-121 | a received command removes items only from the front of the queue |
| `QueueRuns.FailedToSendKeepsOrder` | src/main/java/com/highmobility/commandqueue/CommandQueue.java:155-170 | a send failure removes items only from the front of the queue |
| `QueueRuns.TickKeepsOrder` | src/main/java/com/highmobility/commandqueue/CommandQueue.java:207-226 | the periodic check removes items only from the front of the queue |
| `QueueRuns.AckKeepsOrder` | src/main/java/com/highmobility/commandqueue/BleCommandQueue.java:111-124 | an ack removes items only from the front of the queue |
| `QueueRuns.ApplyKeepsArrivalOrder` | src/main/java/com/highmobility/commandqueue/CommandQueue.java:71-121 | every event keeps the queue first-in first-out: it removes items from the front or appends one at the back |
| `Retries.FailureRunIsRun` | src/main/java/com/highmobility/commandqueue/CommandQueue.java:155-170 | replaying timeout failures as queue events gives the same state and trace as calling the failure handler on each in turn |
| `Retries.TickRunIsRun` | src/main/java/com/highmobility/commandqueue/CommandQueue.java:207-226 | replaying periodic checks as queue events gives the same state and trace as calling the check on each in turn |
| `Retries.TimeoutFailureResends` | src/main/java/com/highmobility/commandqueue/CommandQueue.java:161-166 | a timeout failure of a head with retries left resends it, flags it as timed out, keeps the invariant and uses up one attempt |
| `Retries.FailureRunOutcome` | src/main/java/com/highmobility/commandqueue/CommandQueue.java:155-183 | timeout failures, one per attempt left, resend the head until the last one fails it, with the reason set by the timeout flag and retry count |
| `Retries.ExpiredTickResends` | src/main/java/com/highmobility/commandqueue/CommandQueue.java:213-221 | the check finding an expired head with retries left resends it, stamps the new send time and uses up one attempt |
| `Retries.ExpiredTickFails` | src/main/java/com/highmobility/commandqueue/CommandQueue.java:213-219 | the check finding an expired head with no retries left fails it as a timeout and empties the queue |
| `Retries.TickRunOutcome` | src/main/java/com/highmobility/commandqueue/CommandQueue.java:207-226 | checks at intervals longer than the timeout resend the head once per retry left and then fail it as a timeout |
| `Retries.RepeatedTimeoutFailures` | src/main/java/com/highmobility/commandqueue/CommandQueue.java:155-170 | repeated timeout failures resend the head once per retry left; then the head fails with the last error and the queue is emptied; the reason is `Timeout` exactly when the head was already flagged or had a retry left |
| `Retries.RepeatedExpiredTicks` | src/main/java/com/highmobility/commandqueue/CommandQueue.java:207-226 | repeated expired checks resend the head once per retry left; then it fails with `Timeout` after retry count + 1 attempts; items behind the head are purged without ever being sent |
| `Retries.ThreeRetriesThenTimeout` | src/main/java/com/highmobility/commandqueue/CommandQueue.java:162-168 | with retry count 3, a freshly sent item is resent 3 times and then reported as `Timeout` |
| `Retries.TimeoutWithoutRetriesIsFailedToSend` | src/main/java/com/highmobility/commandqueue/CommandQueue.java:161-183 | with retry count 0, a timeout send failure of an unflagged head is reported as `FailedToSend` |
| `Retries.HardErrorAfterRetryIsTimeout` | src/main/java/com/highmobility/commandqueue/CommandQueue.java:161-183 | after a timeout retry, a later non-timeout failure is reported as `Timeout` and carries the later error |
| `Retries.HardErrorAfterTickRetryIsFailedToSend` | src/main/java/com/highmobility/commandqueue/CommandQueue.java:207-221 | for a head never retried after a timeout send failure, a retry made by the periodic check leaves the timeout flag unset, so a later non-timeout failure is reported as `FailedToSend` and carries that error |
| `Scenarios.TelematicsRetriesOnceThenTimesOut` | src/test/java/com/highmobility/commandqueue/TelematicsCommandQueueTest.kt:62-86 | with one retry: two sends, then a `Timeout` failure carrying the transport error, and an empty queue |
| `Scenarios.TelematicsFirstSend` | src/main/java/com/highmobility/commandqueue/CommandQueue.java:71-77 | queueing on a new telematics queue with one retry sends the command at once and leaves it two attempts |
| `Scenarios.AckCompletesItem` | src/main/java/com/highmobility/commandqueue/BleCommandQueue.java:111-124 | an ack-only item is sent, acked and removed; the timer runs until the next periodic check, which stops it |
| `Scenarios.PurgeThenQueueStartsFresh` | src/main/java/com/highmobility/commandqueue/CommandQueue.java:71-85 | after a purge, an enqueue is accepted, sent at once and restarts the timer |
| `Scenarios.DuplicateIsRefused` | src/main/java/com/highmobility/commandqueue/CommandQueue.java:71-77 | once a command is queued, a command with the same signature is refused and changes nothing |

The getters of `QueueItem.java` (lines 20-50) are the field destructors of the
`QueueItem` datatype, so they return the stored fields unchanged by construction.

## Left out

- The scheduler, its future and the 30 ms polling period: the periodic check is the explicit `SendCommandAgainIfTimeout` event, and the timer is a boolean. The check's first run, which is immediate on scheduling, is not forced.
- The delayed dispatch through an Android `Handler` when the command delay is non-zero: dispatch is immediate in the model. The delay is stored but has no effect.
- `Calendar` wall-clock time: every event takes an integer `now`.
- `CommandResolver.resolve` and `FailureMessage.getCommandFailed` belong to a foreign library. Commands arrive already resolved, and a failure message carries the signature it names. `CommandResolver.setRuntime` has no effect on the queue.
- `LinkError` and `TelematicsError` internals: a send error is an error token, and the BLE link error keeps only whether its type is `TIME_OUT`.
- `TelematicsCommandQueue` is not part of this model. Its error-to-timeout mapping is an explicit `timeout` argument of `OnCommandFailedToSend`, and its response matching is the `telematics` flag.
- Listener callbacks and logging: the callbacks are the output trace, and logging is dropped.
- Concurrency: every event runs to completion before the next one starts. Interleavings of the scheduler thread with callbacks are not modelled.
- Java `int` and `long` widths: retry counts, times and the timeout sum are unbounded integers, so overflow is not modelled.
