/**
 * Retry behaviour over whole runs: how many times a head is resent before it
 * fails, and with which reason, when the link keeps timing out or the
 * periodic check keeps finding it expired.
 */
module Retries {
  import opened Wrappers
  import opened QueueItems
  import opened CommandQueue
  import opened QueueInvariants
  import opened QueueRuns

  /** Timeout send failures of `command`, one reported at each of `times`. */
  function TimeoutFailures(command: Command, error: SendError, times: seq<int>): (events: seq<Timed>)
    ensures |events| == |times|
  {
    if |times| == 0 then []
    else [Timed(SendFailed(command, error, true), times[0])] + TimeoutFailures(command, error, times[1..])
  }

  /** `n` runs of the periodic check, the first at `start` and then every `gap` milliseconds. */
  function ExpiredTicks(n: nat, start: int, gap: int): (events: seq<Timed>)
    ensures |events| == n
  {
    if n == 0 then []
    else [Timed(Tick, start)] + ExpiredTicks(n - 1, start + gap, gap)
  }

  /** How many more sends the head of a valid queue gets before it fails, plus one. */
  function AttemptsLeft(s: QueueState): nat
    requires Inv(s) && |s.items| > 0
  {
    RetryBudget(s.retryCount) - s.items[0].retryCount + 1
  }

  /** `OnCommandFailedToSend` with a timeout for `command` at each of `times`, traces joined. */
  function FailureRun(s: QueueState, command: Command, error: SendError, times: seq<int>): Step
    decreases |times|
  {
    if |times| == 0 then Step(s, [])
    else
      var first := OnCommandFailedToSend(s, command, error, true, times[0]);
      var rest := FailureRun(first.state, command, error, times[1..]);
      Step(rest.state, first.out + rest.out)
  }

  /** `SendCommandAgainIfTimeout` `n` times, at `start` and then every `gap`, traces joined. */
  function TickRun(s: QueueState, n: nat, start: int, gap: int): Step
    decreases n
  {
    if n == 0 then Step(s, [])
    else
      var first := SendCommandAgainIfTimeout(s, start);
      var rest := TickRun(first.state, n - 1, start + gap, gap);
      Step(rest.state, first.out + rest.out)
  }

  /** Running the timeout failures as events is the same as the failure runner. */
  lemma {:induction false} FailureRunIsRun(s: QueueState, command: Command, error: SendError, times: seq<int>)
    ensures Run(s, TimeoutFailures(command, error, times)) == FailureRun(s, command, error, times)
    decreases |times|
  {
    if |times| > 0 {
      var events := TimeoutFailures(command, error, times);
      assert events[0] == Timed(SendFailed(command, error, true), times[0]);
      assert events[1..] == TimeoutFailures(command, error, times[1..]);
      FailureRunIsRun(OnCommandFailedToSend(s, command, error, true, times[0]).state, command, error, times[1..]);
    }
  }

  /** Running the periodic checks as events is the same as the tick runner. */
  lemma {:induction false} TickRunIsRun(s: QueueState, n: nat, start: int, gap: int)
    ensures Run(s, ExpiredTicks(n, start, gap)) == TickRun(s, n, start, gap)
    decreases n
  {
    if n > 0 {
      var events := ExpiredTicks(n, start, gap);
      assert events[0] == Timed(Tick, start);
      assert events[1..] == ExpiredTicks(n - 1, start + gap, gap);
      TickRunIsRun(SendCommandAgainIfTimeout(s, start).state, n - 1, start + gap, gap);
    }
  }

  /** A trace of `m` items whose first `m - 1` are sends of `command`, after one more such send. */
  lemma PrependSend(command: Command, out: seq<Output>, m: nat)
    requires m >= 1 && |out| == m
    requires forall k :: 0 <= k < m - 1 ==> out[k] == SendCommand(command)
    ensures var longer := [SendCommand(command)] + out;
            && |longer| == m + 1
            && (forall k :: 0 <= k < m ==> longer[k] == SendCommand(command))
            && longer[m] == out[m - 1]
  {
  }

  /** A timeout failure of a head with retries left resends it and flags it. */
  lemma TimeoutFailureResends(s: QueueState, error: SendError, now: int)
    requires Inv(s) && |s.items| > 0
    requires s.items[0].retryCount < s.retryCount
    ensures var r := OnCommandFailedToSend(s, s.items[0].commandSent, error, true, now);
            && r.out == [SendCommand(s.items[0].commandSent)]
            && Inv(r.state) && |r.state.items| > 0
            && r.state.items[0].commandSent == s.items[0].commandSent
            && r.state.items[0].timeout
            && AttemptsLeft(r.state) == AttemptsLeft(s) - 1
  {
    OnCommandFailedToSendPreservesInv(s, s.items[0].commandSent, error, true, now);
  }

  /** What the failure runner produces, by induction on the attempts left. */
  lemma {:induction false} FailureRunOutcome(s: QueueState, error: SendError, times: seq<int>)
    requires Inv(s) && |s.items| > 0 && |times| == AttemptsLeft(s)
    ensures var head := s.items[0];
            var n := AttemptsLeft(s);
            var r := FailureRun(s, head.commandSent, error, times);
            && r.state.items == [] && !r.state.timerRunning
            && |r.out| == n
            && (forall k :: 0 <= k < n - 1 ==> r.out[k] == SendCommand(head.commandSent))
            && r.out[n - 1].CommandFailed?
            && r.out[n - 1].failure.item.commandSent == head.commandSent
            && r.out[n - 1].failure.errorObject == Some(error)
            && r.out[n - 1].failure.reason
               == (if head.timeout || head.retryCount < s.retryCount then Timeout else FailedToSend)
    decreases AttemptsLeft(s)
  {
    var head := s.items[0];
    var n := AttemptsLeft(s);
    var first := OnCommandFailedToSend(s, head.commandSent, error, true, times[0]);
    var rest := FailureRun(first.state, head.commandSent, error, times[1..]);
    assert FailureRun(s, head.commandSent, error, times) == Step(rest.state, first.out + rest.out);
    if head.retryCount < s.retryCount {
      TimeoutFailureResends(s, error, times[0]);
      FailureRunOutcome(first.state, error, times[1..]);
      PrependSend(head.commandSent, rest.out, n - 1);
    } else {
      assert n == 1;
      assert rest == Step(first.state, []);
      assert first.out + rest.out == first.out;
    }
  }

  /**
   * The head's command failing with a timeout again and again: it is resent
   * once per retry left and then fails, emptying the queue. The reason is a
   * timeout only when the head was already flagged or at least one retry
   * happens on the way; otherwise the error is reported as a failed send.
   */
  lemma RepeatedTimeoutFailures(s: QueueState, error: SendError, times: seq<int>)
    requires Inv(s) && |s.items| > 0 && |times| == AttemptsLeft(s)
    ensures var head := s.items[0];
            var n := AttemptsLeft(s);
            var r := Run(s, TimeoutFailures(head.commandSent, error, times));
            && r.state.items == [] && !r.state.timerRunning
            && |r.out| == n
            && (forall k :: 0 <= k < n - 1 ==> r.out[k] == SendCommand(head.commandSent))
            && r.out[n - 1].CommandFailed?
            && r.out[n - 1].failure.item.commandSent == head.commandSent
            && r.out[n - 1].failure.errorObject == Some(error)
            && r.out[n - 1].failure.reason
               == (if head.timeout || head.retryCount < s.retryCount then Timeout else FailedToSend)
  {
    FailureRunIsRun(s, s.items[0].commandSent, error, times);
    FailureRunOutcome(s, error, times);
  }

  /** The periodic check finding an expired head with retries left resends it at `now`. */
  lemma ExpiredTickResends(s: QueueState, now: int)
    requires Inv(s) && |s.items| > 0
    requires now - s.items[0].timeSent.value > s.timeout
    requires s.items[0].retryCount < s.retryCount
    ensures var r := SendCommandAgainIfTimeout(s, now);
            && r.out == [SendCommand(s.items[0].commandSent)]
            && Inv(r.state) && |r.state.items| > 0
            && r.state.items[0].commandSent == s.items[0].commandSent
            && r.state.items[0].timeSent == Some(now)
            && AttemptsLeft(r.state) == AttemptsLeft(s) - 1
            && SameSettings(s, r.state)
  {
    SendCommandAgainIfTimeoutPreservesInv(s, now);
  }

  /** The periodic check finding an expired head with no retries left fails it as a timeout. */
  lemma ExpiredTickFails(s: QueueState, now: int)
    requires Inv(s) && |s.items| > 0
    requires now - s.items[0].timeSent.value > s.timeout
    requires s.items[0].retryCount >= s.retryCount
    ensures var r := SendCommandAgainIfTimeout(s, now);
            && AttemptsLeft(s) == 1
            && r.state.items == [] && !r.state.timerRunning
            && |r.out| == 1 && r.out[0].CommandFailed?
            && r.out[0].failure.item.commandSent == s.items[0].commandSent
            && r.out[0].failure.item.retryCount == RetryBudget(s.retryCount) + 1
            && r.out[0].failure.reason == Timeout
  {
  }

  /** What the tick runner produces, by induction on the attempts left. */
  lemma {:induction false} TickRunOutcome(s: QueueState, start: int, gap: int)
    requires Inv(s) && |s.items| > 0
    requires start - s.items[0].timeSent.value > s.timeout && gap > s.timeout
    ensures var head := s.items[0];
            var n := AttemptsLeft(s);
            var r := TickRun(s, n, start, gap);
            && r.state.items == [] && !r.state.timerRunning
            && |r.out| == n
            && (forall k :: 0 <= k < n - 1 ==> r.out[k] == SendCommand(head.commandSent))
            && r.out[n - 1].CommandFailed?
            && r.out[n - 1].failure.item.commandSent == head.commandSent
            && r.out[n - 1].failure.item.retryCount == RetryBudget(s.retryCount) + 1
            && r.out[n - 1].failure.reason == Timeout
    decreases AttemptsLeft(s)
  {
    var head := s.items[0];
    var n := AttemptsLeft(s);
    var first := SendCommandAgainIfTimeout(s, start);
    var rest := TickRun(first.state, n - 1, start + gap, gap);
    assert TickRun(s, n, start, gap) == Step(rest.state, first.out + rest.out);
    if head.retryCount < s.retryCount {
      ExpiredTickResends(s, start);
      TickRunOutcome(first.state, start + gap, gap);
      PrependSend(head.commandSent, rest.out, n - 1);
    } else {
      ExpiredTickFails(s, start);
      assert rest == Step(first.state, []);
      assert first.out + rest.out == first.out;
    }
  }

  /**
   * The periodic check finding the head expired again and again: it is resent
   * once per retry left, then fails with a timeout and the whole queue
   * (every item behind the head included, none of them ever sent) is purged.
   */
  lemma RepeatedExpiredTicks(s: QueueState, start: int, gap: int)
    requires Inv(s) && |s.items| > 0
    requires start - s.items[0].timeSent.value > s.timeout && gap > s.timeout
    ensures var head := s.items[0];
            var n := AttemptsLeft(s);
            var r := Run(s, ExpiredTicks(n, start, gap));
            && r.state.items == [] && !r.state.timerRunning
            && |r.out| == n
            && (forall k :: 0 <= k < n - 1 ==> r.out[k] == SendCommand(head.commandSent))
            && r.out[n - 1].CommandFailed?
            && r.out[n - 1].failure.item.commandSent == head.commandSent
            && r.out[n - 1].failure.item.retryCount == RetryBudget(s.retryCount) + 1
            && r.out[n - 1].failure.reason == Timeout
  {
    TickRunIsRun(s, AttemptsLeft(s), start, gap);
    TickRunOutcome(s, start, gap);
  }

  /** With three retries, a freshly sent item is resent three times and then times out. */
  lemma ThreeRetriesThenTimeout(s: QueueState, error: SendError, times: seq<int>)
    requires Inv(s) && |s.items| > 0 && s.retryCount == 3
    requires s.items[0].retryCount == 0 && !s.items[0].timeout && |times| == 4
    ensures var head := s.items[0];
            var r := Run(s, TimeoutFailures(head.commandSent, error, times));
            && r.state.items == [] && |r.out| == 4
            && r.out[..3] == [SendCommand(head.commandSent), SendCommand(head.commandSent), SendCommand(head.commandSent)]
            && r.out[3].CommandFailed? && r.out[3].failure.reason == Timeout
  {
    RepeatedTimeoutFailures(s, error, times);
  }

  /**
   * With no retries, a timeout send failure is reported as a failed send:
   * the item's timeout flag is only set when a retry happens.
   */
  lemma TimeoutWithoutRetriesIsFailedToSend(s: QueueState, error: SendError, now: int)
    requires Inv(s) && |s.items| > 0 && s.retryCount == 0 && !s.items[0].timeout
    ensures var r := OnCommandFailedToSend(s, s.items[0].commandSent, error, true, now);
            r.state.items == [] && r.out == [CommandFailed(r.out[0].failure)] && r.out[0].failure.reason == FailedToSend
  {
  }

  /**
   * Once a head has been retried after a timeout its flag stays set, so a later
   * hard error is reported as a timeout.
   */
  lemma HardErrorAfterRetryIsTimeout(s: QueueState, first: SendError, second: SendError, t1: int, t2: int)
    requires Inv(s) && |s.items| > 0 && s.items[0].retryCount < s.retryCount
    ensures var command := s.items[0].commandSent;
            var r := Run(s, [Timed(SendFailed(command, first, true), t1), Timed(SendFailed(command, second, false), t2)]);
            && r.state.items == [] && |r.out| == 2
            && r.out[0] == SendCommand(command)
            && r.out[1].CommandFailed? && r.out[1].failure.reason == Timeout
            && r.out[1].failure.errorObject == Some(second)
  {
    var command := s.items[0].commandSent;
    var events := [Timed(SendFailed(command, first, true), t1), Timed(SendFailed(command, second, false), t2)];
    var step1 := Apply(s, events[0]);
    assert step1.out == [SendCommand(command)];
    assert step1.state.items[0].timeout && step1.state.items[0].failure.None?;
    var step2 := Apply(step1.state, events[1]);
    assert step2.out == [CommandFailed(FailureOf(step1.state.items[0].(sdkError := Some(second))))];
    assert events[1..] == [events[1]];
    assert Run(step1.state, events[1..]) == Step(step2.state, step2.out + []);
  }

  /**
   * A retry made by the periodic check leaves the timeout flag unset, so a
   * later hard error is reported as a failed send, not as a timeout.
   */
  lemma HardErrorAfterTickRetryIsFailedToSend(s: QueueState, second: SendError, t1: int, t2: int)
    requires Inv(s) && |s.items| > 0 && s.items[0].retryCount < s.retryCount && !s.items[0].timeout
    requires t1 - s.items[0].timeSent.value > s.timeout
    ensures var command := s.items[0].commandSent;
            var r := Run(s, [Timed(Tick, t1), Timed(SendFailed(command, second, false), t2)]);
            && r.state.items == [] && |r.out| == 2
            && r.out[0] == SendCommand(command)
            && r.out[1].CommandFailed? && r.out[1].failure.reason == FailedToSend
            && r.out[1].failure.errorObject == Some(second)
  {
    var command := s.items[0].commandSent;
    var events := [Timed(Tick, t1), Timed(SendFailed(command, second, false), t2)];
    var step1 := Apply(s, events[0]);
    assert step1 == SendCommandAgainIfTimeout(s, t1);
    assert step1.out == [SendCommand(command)];
    assert !step1.state.items[0].timeout && step1.state.items[0].failure.None?;
    var step2 := Apply(step1.state, events[1]);
    assert step2.out == [CommandFailed(FailureOf(step1.state.items[0].(sdkError := Some(second))))];
    assert events[1..] == [events[1]];
    assert Run(step1.state, events[1..]) == Step(step2.state, step2.out + []);
  }
}
