/**
 * The invariant every queue keeps between events: no two items share a
 * signature; a non-empty queue has its head in flight (sent, timer running,
 * within its retry budget, no failure recorded) and every other item untouched.
 */
module QueueInvariants {
  import Configuration
  import opened QueueItems
  import opened CommandQueue
  import opened BleCommandQueue

  predicate NoDuplicateSignatures(items: seq<QueueItem>)
  {
    forall i, j :: 0 <= i < j < |items| ==> !IsSameCommand(items[i].commandSent, items[j].commandSent)
  }

  /** The most retries a head can have used: a negative budget still allows the first send. */
  function RetryBudget(retryCount: int): nat
  {
    if retryCount < 0 then 0 else retryCount
  }

  predicate HeadInFlight(s: QueueState)
  {
    |s.items| > 0 ==>
      var head := s.items[0];
      && head.timeSent.Some?
      && s.timerRunning
      && head.failure.None?
      && (head.sdkError.Some? ==> head.timeout)
      && head.retryCount <= RetryBudget(s.retryCount)
  }

  predicate RestPending(items: seq<QueueItem>)
  {
    forall i :: 1 <= i < |items| ==> Pristine(items[i])
  }

  predicate Inv(s: QueueState)
  {
    NoDuplicateSignatures(s.items) && HeadInFlight(s) && RestPending(s.items)
  }

  /** Dropping the head of a valid queue and sending the next item keeps the invariant. */
  lemma CompleteHeadPreservesInv(s: QueueState, now: int)
    requires |s.items| > 0 && Inv(s)
    ensures Inv(CompleteHead(s, now).state)
  {
  }

  /** A purge leaves a valid (empty) queue, whatever it started from. */
  lemma PurgeEstablishesInv(s: QueueState)
    ensures Inv(Purge(s))
  {
  }

  /** A new queue is valid. */
  lemma NewQueueSatisfiesInv(config: Configuration.QueueConfiguration, telematics: bool)
    ensures Inv(NewQueue(config, telematics))
  {
  }

  /** Enqueuing a new item keeps the invariant, so no two items ever share a signature. */
  lemma EnqueueItemPreservesInv(s: QueueState, item: QueueItem, now: int)
    requires Inv(s) && Pristine(item)
    ensures Inv(EnqueueItem(s, item, now).step.state)
  {
  }

  /** A received command keeps the invariant: a completed head is replaced by the next item, sent. */
  lemma OnCommandReceivedPreservesInv(s: QueueState, command: Command, now: int)
    requires Inv(s)
    ensures Inv(OnCommandReceived(s, command, now).state)
  {
  }

  /** A send failure keeps the invariant: a retried head stays within its budget. */
  lemma OnCommandFailedToSendPreservesInv(s: QueueState, command: Command, error: SendError, timeout: bool, now: int)
    requires Inv(s)
    ensures Inv(OnCommandFailedToSend(s, command, error, timeout, now).state)
  {
  }

  /** The periodic check keeps the invariant. */
  lemma SendCommandAgainIfTimeoutPreservesInv(s: QueueState, now: int)
    requires Inv(s)
    ensures Inv(SendCommandAgainIfTimeout(s, now).state)
  {
  }

  /** A BLE ack keeps the invariant. */
  lemma OnCommandSentPreservesInv(s: QueueState, command: Command, now: int)
    requires Inv(s)
    ensures Inv(OnCommandSent(s, command, now).state)
  {
  }

  /**
   * Under the invariant the periodic check never meets an unsent head, so its
   * dereference of the head's send time is safe and the timer only stops on
   * an empty queue.
   */
  lemma TickStopsTimerOnlyWhenEmpty(s: QueueState, now: int)
    requires Inv(s)
    ensures |s.items| > 0 ==> s.items[0].timeSent.Some?
    ensures !SendCommandAgainIfTimeout(s, now).state.timerRunning ==> SendCommandAgainIfTimeout(s, now).state.items == []
  {
  }

  /** Under the invariant a failure raised by the periodic check is always a timeout. */
  lemma TickFailureIsTimeout(s: QueueState, now: int)
    requires Inv(s)
    ensures forall k :: 0 <= k < |SendCommandAgainIfTimeout(s, now).out| && SendCommandAgainIfTimeout(s, now).out[k].CommandFailed? ==>
      SendCommandAgainIfTimeout(s, now).out[k].failure.reason == Timeout
  {
  }
}
