/**
 * The single-flight delivery engine of CommandQueue.java. A queue is an
 * immutable value; each entry point is a function from the queue (plus the
 * event's data and the current time in milliseconds) to the new queue and the
 * listener calls made on the way, in order. Only the head item is ever sent,
 * retried, completed or failed.
 */
module CommandQueue {
  import opened Wrappers
  import opened Configuration
  import opened QueueItems

  datatype Reason = Timeout | FailedToSend | FailureResponse

  /** The report handed to the listener when an item fails for good. */
  datatype QueueItemFailure = QueueItemFailure(
    item: QueueItem,
    reason: Reason,
    failureResponse: Option<Command>,
    errorObject: Option<SendError>)

  /** A call the queue makes on its listener. */
  datatype Output =
    | SendCommand(command: Command)
    | CommandReceived(command: Command, sentCommand: Option<QueueItem>)
    | CommandAck(command: Command)
    | CommandFailed(failure: QueueItemFailure)

  /**
   * The queue's fields. `timerRunning` stands for the periodic timeout check
   * being scheduled; `telematics` says whether the queue is a telematics queue.
   */
  datatype QueueState = QueueState(
    items: seq<QueueItem>,
    timerRunning: bool,
    timeout: int,
    retryCount: int,
    commandDelay: int,
    telematics: bool)

  /** The queue after an event, and the listener calls the event caused. */
  datatype Step = Step(state: QueueState, out: seq<Output>)

  /** The result of an enqueue: whether the item was accepted, and the step. */
  datatype Enqueued = Enqueued(accepted: bool, step: Step)

  /** The two queues differ at most in their items and timer. */
  predicate SameSettings(a: QueueState, b: QueueState)
  {
    && a.timeout == b.timeout
    && a.retryCount == b.retryCount
    && a.commandDelay == b.commandDelay
    && a.telematics == b.telematics
  }

  /** A new queue copies its configuration and starts empty with no timer. */
  function NewQueue(config: QueueConfiguration, telematics: bool): (s: QueueState)
    ensures s.items == [] && !s.timerRunning
    ensures s.timeout == config.timeout && s.retryCount == config.retryCount
    ensures s.commandDelay == config.delay && s.telematics == telematics
  {
    QueueState([], false, config.timeout, config.retryCount, config.delay, telematics)
  }

  /** Whether two commands have the same (identifier, type) signature. */
  function IsSameCommand(first: Command, second: Command): (r: bool)
    ensures r <==> first.Sig() == second.Sig()
  {
    first.identifier == second.identifier && first.commandType == second.commandType
  }

  /** Whether some queued item carries a command with the same signature. */
  function TypeAlreadyQueued(items: seq<QueueItem>, command: Command): (r: bool)
    ensures r <==> exists i :: 0 <= i < |items| && IsSameCommand(items[i].commandSent, command)
  {
    if |items| == 0 then false
    else if IsSameCommand(items[0].commandSent, command) then true
    else
      var rest := TypeAlreadyQueued(items[1..], command);
      assert forall i :: 1 <= i < |items| ==> items[i] == items[1..][i - 1];
      rest
  }

  /** Start the periodic timeout check unless it is already running. */
  function StartTimer(s: QueueState): (r: QueueState)
    ensures r.timerRunning
    ensures r.items == s.items && SameSettings(s, r)
  {
    s.(timerRunning := true)
  }

  /** Cancel the periodic timeout check, but only when the queue is empty. */
  function StopTimer(s: QueueState): (r: QueueState)
    ensures r.timerRunning <==> s.timerRunning && |s.items| > 0
    ensures r.items == s.items && SameSettings(s, r)
  {
    if |s.items| == 0 then s.(timerRunning := false) else s
  }

  /** Clear the queue and stop the timer (called when the connection is lost). */
  function Purge(s: QueueState): (r: QueueState)
    ensures r.items == [] && !r.timerRunning && SameSettings(s, r)
  {
    StopTimer(s.(items := []))
  }

  /**
   * Send the head item if it has not been sent yet: stamp it with `now`,
   * hand its command to the transport and make sure the timer runs.
   */
  function SendItem(s: QueueState, now: int): (r: Step)
    ensures |s.items| == 0 || s.items[0].timeSent.Some? ==> r == Step(s, [])
    ensures |s.items| > 0 && s.items[0].timeSent.None? ==>
      && r.out == [SendCommand(s.items[0].commandSent)]
      && r.state.items == s.items[0 := s.items[0].(timeSent := Some(now))]
      && r.state.timerRunning
    ensures SameSettings(s, r.state)
  {
    if |s.items| == 0 then Step(s, [])
    else
      var item := s.items[0];
      if item.timeSent.Some? then Step(s, [])
      else
        var sent := item.(timeSent := Some(now));
        Step(StartTimer(s.(items := s.items[0 := sent])), [SendCommand(item.commandSent)])
  }

  /**
   * `after` is what accepting `item` into `before` at `now` yields: the item is
   * appended behind every earlier item, the items behind the head are kept,
   * a head already in flight is left alone with nothing sent, and an unsent
   * item queued on an empty queue is sent at once with the timer running.
   */
  predicate AcceptedInto(before: QueueState, item: QueueItem, now: int, after: Step)
  {
    && |after.state.items| == |before.items| + 1
    && after.state.items[1..] == (before.items + [item])[1..]
    && SameSettings(before, after.state)
    && (|before.items| > 0 && before.items[0].timeSent.Some? ==>
          after == Step(before.(items := before.items + [item]), []))
    && (|before.items| == 0 && item.timeSent.None? ==>
          && after.state.items == [item.(timeSent := Some(now))]
          && after.out == [SendCommand(item.commandSent)]
          && after.state.timerRunning)
  }

  /** Append `item` unless its command's signature is already queued, then try to send. */
  function EnqueueItem(s: QueueState, item: QueueItem, now: int): (r: Enqueued)
    ensures r.accepted <==> forall i :: 0 <= i < |s.items| ==> !IsSameCommand(s.items[i].commandSent, item.commandSent)
    ensures !r.accepted ==> r.step == Step(s, [])
    ensures r.accepted ==> AcceptedInto(s, item, now, r.step)
  {
    if TypeAlreadyQueued(s.items, item.commandSent) then Enqueued(false, Step(s, []))
    else Enqueued(true, SendItem(s.(items := s.items + [item]), now))
  }

  /** `queue(command)`: an item waiting for its ack only. */
  function Queue(s: QueueState, command: Command, now: int): (r: Enqueued)
    ensures r.accepted <==> !TypeAlreadyQueued(s.items, command)
    ensures !r.accepted ==> r.step == Step(s, [])
    ensures r.accepted ==>
      && AcceptedInto(s, NewItem(command, None), now, r.step)
      && var last := r.step.state.items[|s.items|];
         last.commandSent == command && last.responseClass.None? && last.info.None?
  {
    EnqueueItem(s, NewItem(command, None), now)
  }

  /** The failure reason, by precedence: failure response, then non-timeout error, then timeout. */
  function Classify(item: QueueItem): (reason: Reason)
    ensures reason == FailureResponse <==> item.failure.Some?
    ensures reason == FailedToSend <==> item.failure.None? && item.sdkError.Some? && !item.timeout
    ensures reason == Timeout <==> item.failure.None? && (item.sdkError.None? || item.timeout)
  {
    if item.failure.Some? then FailureResponse
    else if item.sdkError.Some? && !item.timeout then FailedToSend
    else Timeout
  }

  /** The report for a failed item. */
  function FailureOf(item: QueueItem): QueueItemFailure
  {
    QueueItemFailure(item, Classify(item), item.failure, item.sdkError)
  }

  /** Fail the head item: report it once and purge the whole queue. */
  function FailItem(s: QueueState): (r: Step)
    ensures |s.items| == 0 ==> r == Step(s, [])
    ensures |s.items| > 0 ==>
      && r.state.items == [] && !r.state.timerRunning
      && |r.out| == 1 && r.out[0].CommandFailed?
      && r.out[0].failure.item == s.items[0]
      && r.out[0].failure.failureResponse == s.items[0].failure
      && r.out[0].failure.errorObject == s.items[0].sdkError
      && r.out[0].failure.reason == Classify(s.items[0])
    ensures SameSettings(s, r.state)
  {
    if |s.items| == 0 then Step(s, [])
    else
      var item := s.items[0];
      Step(Purge(s.(items := s.items[1..])), [CommandFailed(FailureOf(item))])
  }

  /** Remove the completed head item and send the next one. */
  function CompleteHead(s: QueueState, now: int): (r: Step)
    requires |s.items| > 0
    ensures |r.state.items| == |s.items| - 1
    ensures |s.items| == 1 ==> r == Step(s.(items := []), [])
    ensures |s.items| > 1 ==> r.state.items[1..] == s.items[2..]
    ensures |s.items| > 1 && s.items[1].timeSent.None? ==>
      && r.state.items[0] == s.items[1].(timeSent := Some(now))
      && r.out == [SendCommand(s.items[1].commandSent)]
      && r.state.timerRunning
    ensures |s.items| > 1 && s.items[1].timeSent.Some? ==>
      r.state.items[0] == s.items[1] && r.out == []
    ensures SameSettings(s, r.state)
  {
    SendItem(s.(items := s.items[1..]), now)
  }

  /** Whether a regular command received while `s` has a head is that head's response. */
  predicate IsResponse(s: QueueState, command: Command)
    requires |s.items| > 0
  {
    command.length > 2 && (s.telematics || s.items[0].responseClass == Some(command.cls))
  }

  /** `onCommandReceived`: a command resolved from received bytes. */
  function OnCommandReceived(s: QueueState, command: Command, now: int): (r: Step)
    ensures |s.items| == 0 ==> r == Step(s, [CommandReceived(command, None)])
    ensures |s.items| > 0 && command.kind.FailureMessage? ==>
      if command.kind.failed == s.items[0].commandSent.Sig() then
        && r.state.items == [] && !r.state.timerRunning
        && r.out == [CommandFailed(QueueItemFailure(s.items[0].(failure := Some(command)),
                                                    FailureResponse, Some(command), s.items[0].sdkError))]
      else
        r == Step(s, [])
    ensures |s.items| > 0 && command.kind.Regular? ==>
      if IsResponse(s, command) then
        && |r.out| > 0 && r.out[0] == CommandReceived(command, Some(s.items[0]))
        && r.state == CompleteHead(s, now).state
        && r.out[1..] == CompleteHead(s, now).out
      else
        r == Step(s, [CommandReceived(command, None)])
    ensures SameSettings(s, r.state)
  {
    if |s.items| == 0 then Step(s, [CommandReceived(command, None)])
    else
      var item := s.items[0];
      match command.kind
      case FailureMessage(failed) =>
        if failed == item.commandSent.Sig() then
          FailItem(s.(items := s.items[0 := item.(failure := Some(command))]))
        else
          Step(s, [])
      case Regular =>
        if IsResponse(s, command) then
          var next := CompleteHead(s, now);
          Step(next.state, [CommandReceived(command, Some(item))] + next.out)
        else
          Step(s, [CommandReceived(command, None)])
  }

  /**
   * `onCommandFailedToSend(command, error, timeout)`: a send of the head's
   * command failed. A timeout with retries left resends; anything else fails.
   */
  function OnCommandFailedToSend(s: QueueState, command: Command, error: SendError, timeout: bool, now: int): (r: Step)
    ensures |s.items| == 0 || !IsSameCommand(s.items[0].commandSent, command) ==> r == Step(s, [])
    ensures |s.items| > 0 && IsSameCommand(s.items[0].commandSent, command) ==>
      if timeout && s.items[0].retryCount < s.retryCount then
        && r.out == [SendCommand(s.items[0].commandSent)]
        && r.state.items == s.items[0 := s.items[0].(sdkError := Some(error), timeout := true,
                                                    retryCount := s.items[0].retryCount + 1,
                                                    timeSent := Some(now))]
        && r.state.timerRunning
      else
        && r.state.items == [] && !r.state.timerRunning
        && r.out == [CommandFailed(FailureOf(s.items[0].(sdkError := Some(error))))]
    ensures SameSettings(s, r.state)
  {
    if |s.items| == 0 then Step(s, [])
    else
      var item := s.items[0];
      if !IsSameCommand(item.commandSent, command) then Step(s, [])
      else
        var recorded := item.(sdkError := Some(error));
        if timeout && item.retryCount < s.retryCount then
          var retried := recorded.(timeout := true, retryCount := item.retryCount + 1, timeSent := None);
          SendItem(s.(items := s.items[0 := retried]), now)
        else
          FailItem(s.(items := s.items[0 := recorded]))
  }

  /**
   * One run of the periodic timeout check (`sendCommandAgainIfTimeout`).
   * An expired head loses its send time and gains a retry; past the retry
   * budget it fails, otherwise it is sent again. A head that was never sent
   * makes the check throw, which ends the periodic task: the timer is off.
   */
  function SendCommandAgainIfTimeout(s: QueueState, now: int): (r: Step)
    ensures |s.items| == 0 ==> r == Step(s.(timerRunning := false), [])
    ensures |s.items| > 0 && s.items[0].timeSent.None? ==> r == Step(s.(timerRunning := false), [])
    ensures |s.items| > 0 && s.items[0].timeSent.Some? && now - s.items[0].timeSent.value <= s.timeout ==>
      r == Step(s, [])
    ensures |s.items| > 0 && s.items[0].timeSent.Some? && now - s.items[0].timeSent.value > s.timeout ==>
      var bumped := s.items[0].(timeSent := None, retryCount := s.items[0].retryCount + 1);
      if bumped.retryCount > s.retryCount then
        && r.state.items == [] && !r.state.timerRunning
        && r.out == [CommandFailed(FailureOf(bumped))]
      else
        && r.out == [SendCommand(s.items[0].commandSent)]
        && r.state.items == s.items[0 := bumped.(timeSent := Some(now))]
        && r.state.timerRunning
    ensures SameSettings(s, r.state)
  {
    if |s.items| > 0 then
      var item := s.items[0];
      match item.timeSent
      case None => Step(s.(timerRunning := false), [])
      case Some(sent) =>
        if now - sent > s.timeout then
          var bumped := item.(timeSent := None, retryCount := item.retryCount + 1);
          var expired := s.(items := s.items[0 := bumped]);
          if bumped.retryCount > s.retryCount then FailItem(expired)
          else SendItem(expired, now)
        else
          Step(s, [])
    else
      Step(StopTimer(s), [])
  }
}
