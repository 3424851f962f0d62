/**
 * The BLE queue of BleCommandQueue.java: an item waits for the link's ack,
 * and, when it names a response class, for that response as well.
 */
module BleCommandQueue {
  import opened Wrappers
  import opened Configuration
  import opened QueueItems
  import opened CommandQueue

  /** `new BleCommandQueue(listener)`: 45 s on top of the link timeout, 3 retries, no delay. */
  function DefaultBleConfiguration(linkCommandTimeout: int): (c: QueueConfiguration)
    ensures c.timeout == 45000 + linkCommandTimeout
    ensures c.retryCount == 3 && c.delay == 0
  {
    BleQueueConfiguration(45000, 3, 0, linkCommandTimeout)
  }

  /** A BLE queue is never a telematics queue. */
  function NewBleQueue(config: QueueConfiguration): (s: QueueState)
    ensures s.items == [] && !s.timerRunning && !s.telematics
    ensures s.timeout == config.timeout && s.retryCount == config.retryCount && s.commandDelay == config.delay
  {
    NewQueue(config, false)
  }

  /** `queue(command, responseType)`. */
  function QueueWithResponse(s: QueueState, command: Command, responseType: Option<ClassTag>, now: int): (r: Enqueued)
    ensures r.accepted <==> !TypeAlreadyQueued(s.items, command)
    ensures !r.accepted ==> r.step == Step(s, [])
    ensures r.accepted ==>
      && AcceptedInto(s, NewItem(command, responseType), now, r.step)
      && var last := r.step.state.items[|s.items|];
         last.commandSent == command && last.responseClass == responseType && last.info.None?
  {
    EnqueueItem(s, NewItem(command, responseType), now)
  }

  /** `queue(command, responseType, info)`. */
  function QueueWithInfo(s: QueueState, command: Command, responseType: Option<ClassTag>, info: Info, now: int): (r: Enqueued)
    ensures r.accepted <==> !TypeAlreadyQueued(s.items, command)
    ensures !r.accepted ==> r.step == Step(s, [])
    ensures r.accepted ==>
      && AcceptedInto(s, NewItemWithInfo(command, responseType, info), now, r.step)
      && var last := r.step.state.items[|s.items|];
         last.commandSent == command && last.responseClass == responseType && last.info == Some(info)
  {
    EnqueueItem(s, NewItemWithInfo(command, responseType, info), now)
  }

  /**
   * `onCommandSent`: the link acked `command`. An ack for the head is reported;
   * a head that expects no response is then complete.
   */
  function OnCommandSent(s: QueueState, command: Command, now: int): (r: Step)
    ensures |s.items| == 0 || !IsSameCommand(s.items[0].commandSent, command) ==> r == Step(s, [])
    ensures |s.items| > 0 && IsSameCommand(s.items[0].commandSent, command) ==>
      && |r.out| > 0 && r.out[0] == CommandAck(s.items[0].commandSent)
      && if s.items[0].responseClass.None? then
           r.state == CompleteHead(s, now).state && r.out[1..] == CompleteHead(s, now).out
         else
           r == Step(s, [CommandAck(s.items[0].commandSent)])
    ensures SameSettings(s, r.state)
  {
    if |s.items| == 0 then Step(s, [])
    else
      var item := s.items[0];
      if IsSameCommand(item.commandSent, command) then
        var ack := CommandAck(item.commandSent);
        if item.responseClass.None? then
          var next := CompleteHead(s, now);
          Step(next.state, [ack] + next.out)
        else
          Step(s, [ack])
      else
        Step(s, [])
  }

  /** Whether a link error counts as a timeout. */
  predicate IsTimeout(error: LinkErrorType)
  {
    error == TimeOut
  }

  /** `onCommandFailedToSend(command, linkError)`: retried exactly when the link timed out. */
  function OnLinkCommandFailed(s: QueueState, command: Command, error: LinkErrorType, now: int): (r: Step)
    ensures |s.items| == 0 || !IsSameCommand(s.items[0].commandSent, command) ==> r == Step(s, [])
    ensures |s.items| > 0 && IsSameCommand(s.items[0].commandSent, command) ==>
      && |r.out| == 1
      && (r.out[0].SendCommand? <==> error == TimeOut && s.items[0].retryCount < s.retryCount)
      && (r.out[0].SendCommand? ==> |r.state.items| > 0 && r.state.items[0].sdkError == Some(LinkError(error)))
      && (!r.out[0].SendCommand? ==>
            r.state.items == [] && r.out[0].CommandFailed?
            && r.out[0].failure.errorObject == Some(LinkError(error)))
    ensures |s.items| > 0 && IsSameCommand(s.items[0].commandSent, command) ==>
      if error == TimeOut && s.items[0].retryCount < s.retryCount then
        && r.out == [SendCommand(s.items[0].commandSent)]
        && r.state.items == s.items[0 := s.items[0].(sdkError := Some(LinkError(error)), timeout := true,
                                                    retryCount := s.items[0].retryCount + 1,
                                                    timeSent := Some(now))]
        && r.state.timerRunning
      else
        && !r.state.timerRunning
        && r.out == [CommandFailed(FailureOf(s.items[0].(sdkError := Some(LinkError(error)))))]
        && (s.items[0].failure.None? ==>
              (r.out[0].failure.reason == Timeout <==> s.items[0].timeout))
    ensures SameSettings(s, r.state)
  {
    OnCommandFailedToSend(s, command, LinkError(error), IsTimeout(error), now)
  }
}
