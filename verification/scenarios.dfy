/** Concrete runs of the queue, from a new queue to the end of a delivery. */
module Scenarios {
  import opened Wrappers
  import opened Configuration
  import opened QueueItems
  import opened CommandQueue
  import opened BleCommandQueue
  import opened QueueInvariants
  import opened QueueRuns
  import opened Retries

  /**
   * A telematics queue with one retry: the command is sent, a timeout failure
   * sends it a second time, a second one fails it as a timeout carrying the
   * transport's error, and nothing is left queued.
   */
  lemma TelematicsRetriesOnceThenTimesOut(command: Command, error: SendError, t0: int, t1: int, t2: int)
    ensures var s := NewQueue(TelematicsQueueConfiguration(1, 0), true);
            var r := Run(s, [Timed(Enqueue(command), t0),
                             Timed(SendFailed(command, error, true), t1),
                             Timed(SendFailed(command, error, true), t2)]);
            && r.state.items == [] && !r.state.timerRunning
            && SendCount(r.out) == 2 && |r.out| == 3
            && r.out[2].CommandFailed?
            && r.out[2].failure.reason == Timeout
            && r.out[2].failure.errorObject == Some(error)
  {
    var s := NewQueue(TelematicsQueueConfiguration(1, 0), true);
    var events := [Timed(Enqueue(command), t0),
                   Timed(SendFailed(command, error, true), t1),
                   Timed(SendFailed(command, error, true), t2)];
    var queued := Apply(s, events[0]);
    TelematicsFirstSend(command, t0);
    assert events[1..] == TimeoutFailures(command, error, [t1, t2]) by {
      assert [t1, t2][1..] == [t2];
    }
    RepeatedTimeoutFailures(queued.state, error, [t1, t2]);
    var rest := Run(queued.state, events[1..]);
    assert Run(s, events) == Step(rest.state, queued.out + rest.out);
    var out := queued.out + rest.out;
    assert out == [SendCommand(command), SendCommand(command), rest.out[1]];
    assert out[1..][1..] == [rest.out[1]];
    SendCountAfterNonSend([rest.out[1]]);
  }

  /** Queueing on a new telematics queue with one retry sends at once and leaves two attempts. */
  lemma TelematicsFirstSend(command: Command, t0: int)
    ensures var s := NewQueue(TelematicsQueueConfiguration(1, 0), true);
            var queued := Apply(s, Timed(Enqueue(command), t0));
            && queued.out == [SendCommand(command)]
            && Inv(queued.state) && |queued.state.items| == 1
            && queued.state.items[0].commandSent == command
            && !queued.state.items[0].timeout
            && queued.state.retryCount == 1
            && AttemptsLeft(queued.state) == 2
  {
    var s := NewQueue(TelematicsQueueConfiguration(1, 0), true);
    NewQueueSatisfiesInv(TelematicsQueueConfiguration(1, 0), true);
    EnqueueItemPreservesInv(s, NewItem(command, None), t0);
    assert Apply(s, Timed(Enqueue(command), t0)) == Queue(s, command, t0).step;
  }

  /**
   * A BLE command queued without a response class completes on its ack: the
   * queue is empty but the timer runs until the next periodic check stops it.
   */
  lemma AckCompletesItem(config: QueueConfiguration, command: Command, t0: int, t1: int, t2: int)
    ensures var r := Run(NewBleQueue(config), [Timed(Enqueue(command), t0), Timed(LinkAck(command), t1)]);
            && r.state.items == [] && r.state.timerRunning
            && r.out == [SendCommand(command), CommandAck(command)]
            && var tick := SendCommandAgainIfTimeout(r.state, t2);
               tick.state.items == [] && !tick.state.timerRunning && tick.out == []
  {
    var events := [Timed(Enqueue(command), t0), Timed(LinkAck(command), t1)];
    var queued := Apply(NewBleQueue(config), events[0]);
    assert queued.out == [SendCommand(command)];
    assert queued.state.items == [NewItem(command, None).(timeSent := Some(t0))];
    var acked := Apply(queued.state, events[1]);
    assert acked.out == [CommandAck(command)];
    assert acked.state.items == [] && acked.state.timerRunning;
    assert events[1..] == [events[1]];
    assert Run(queued.state, events[1..]) == Step(acked.state, acked.out + []);
  }

  /** After a purge the next enqueue starts a fresh cycle: sent at once, timer restarted. */
  lemma PurgeThenQueueStartsFresh(s: QueueState, command: Command, now: int)
    ensures var r := Queue(Purge(s), command, now);
            && r.accepted
            && r.step.out == [SendCommand(command)]
            && r.step.state.timerRunning
            && |r.step.state.items| == 1
            && r.step.state.items[0].commandSent == command
            && r.step.state.items[0].timeSent == Some(now)
  {
  }

  /** A second enqueue of the same signature is refused and changes nothing. */
  lemma DuplicateIsRefused(s: QueueState, first: Command, second: Command, t0: int, t1: int)
    requires IsSameCommand(first, second)
    ensures var q := Queue(s, first, t0);
            q.accepted ==>
              var again := Queue(q.step.state, second, t1);
              !again.accepted && again.step == Step(q.step.state, [])
  {
    var q := Queue(s, first, t0);
    if q.accepted {
      assert IsSameCommand(q.step.state.items[|s.items|].commandSent, second);
    }
  }
}
