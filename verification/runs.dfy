/**
 * Sequences of events fed to one queue, and what whole runs of them do:
 * the invariant holds after any run, every step sends at most the head, and
 * repeated timeouts resend exactly as often as the retry budget allows.
 */
module QueueRuns {
  import opened Wrappers
  import opened Configuration
  import opened QueueItems
  import opened CommandQueue
  import opened BleCommandQueue
  import opened QueueInvariants

  /** Every entry point of the queue, as an event. */
  datatype Event =
    | Enqueue(command: Command)
    | EnqueueWithResponse(command: Command, responseType: Option<ClassTag>)
    | EnqueueWithInfo(command: Command, responseType: Option<ClassTag>, info: Info)
    | PurgeEvent
    | Receive(command: Command)
    | LinkAck(command: Command)
    | SendFailed(command: Command, error: SendError, timeout: bool)
    | LinkSendFailed(command: Command, linkError: LinkErrorType)
    | Tick

  /** An event together with the clock reading at which it happens. */
  datatype Timed = Timed(event: Event, now: int)

  function Apply(s: QueueState, t: Timed): Step
  {
    match t.event
    case Enqueue(command) => Queue(s, command, t.now).step
    case EnqueueWithResponse(command, responseType) => QueueWithResponse(s, command, responseType, t.now).step
    case EnqueueWithInfo(command, responseType, info) => QueueWithInfo(s, command, responseType, info, t.now).step
    case PurgeEvent => Step(Purge(s), [])
    case Receive(command) => OnCommandReceived(s, command, t.now)
    case LinkAck(command) => OnCommandSent(s, command, t.now)
    case SendFailed(command, error, timeout) => OnCommandFailedToSend(s, command, error, timeout, t.now)
    case LinkSendFailed(command, linkError) => OnLinkCommandFailed(s, command, linkError, t.now)
    case Tick => SendCommandAgainIfTimeout(s, t.now)
  }

  /** The queue after all `events`, with every listener call in order. */
  function Run(s: QueueState, events: seq<Timed>): Step
    decreases |events|
  {
    if |events| == 0 then Step(s, [])
    else
      var first := Apply(s, events[0]);
      var rest := Run(first.state, events[1..]);
      Step(rest.state, first.out + rest.out)
  }

  /** How many commands a trace hands to the transport. */
  function SendCount(out: seq<Output>): nat
  {
    if |out| == 0 then 0
    else (if out[0].SendCommand? then 1 else 0) + SendCount(out[1..])
  }

  /** Every send in the step is of the command now at the head of the queue. */
  predicate SendsOnlyHead(r: Step)
  {
    forall k :: 0 <= k < |r.out| && r.out[k].SendCommand? ==>
      |r.state.items| > 0 && r.out[k].command == r.state.items[0].commandSent
  }

  lemma ApplyPreservesInv(s: QueueState, t: Timed)
    requires Inv(s)
    ensures Inv(Apply(s, t).state)
  {
    match t.event
    case Enqueue(command) => EnqueueItemPreservesInv(s, NewItem(command, None), t.now);
    case EnqueueWithResponse(command, responseType) =>
      EnqueueItemPreservesInv(s, NewItem(command, responseType), t.now);
    case EnqueueWithInfo(command, responseType, info) =>
      EnqueueItemPreservesInv(s, NewItemWithInfo(command, responseType, info), t.now);
    case PurgeEvent => PurgeEstablishesInv(s);
    case Receive(command) => OnCommandReceivedPreservesInv(s, command, t.now);
    case LinkAck(command) => OnCommandSentPreservesInv(s, command, t.now);
    case SendFailed(command, error, timeout) => OnCommandFailedToSendPreservesInv(s, command, error, timeout, t.now);
    case LinkSendFailed(command, linkError) =>
      OnCommandFailedToSendPreservesInv(s, command, LinkError(linkError), IsTimeout(linkError), t.now);
    case Tick => SendCommandAgainIfTimeoutPreservesInv(s, t.now);
  }

  /** From a valid queue, no sequence of events breaks the invariant. */
  lemma {:induction false} RunPreservesInv(s: QueueState, events: seq<Timed>)
    requires Inv(s)
    ensures Inv(Run(s, events).state)
    decreases |events|
  {
    if |events| > 0 {
      ApplyPreservesInv(s, events[0]);
      RunPreservesInv(Apply(s, events[0]).state, events[1..]);
    }
  }

  /** Every run from a new queue keeps the invariant. */
  lemma NewQueueRunKeepsInv(config: QueueConfiguration, telematics: bool, events: seq<Timed>)
    ensures Inv(Run(NewQueue(config, telematics), events).state)
  {
    NewQueueSatisfiesInv(config, telematics);
    RunPreservesInv(NewQueue(config, telematics), events);
  }

  /** At most one command goes to the transport, and only the one now at the head. */
  predicate SingleFlight(r: Step)
  {
    SendsOnlyHead(r) && SendCount(r.out) <= 1
  }

  /** A trace that starts with a non-send adds nothing to the send count. */
  lemma SendCountAfterNonSend(out: seq<Output>)
    requires |out| > 0 && !out[0].SendCommand?
    ensures SendCount(out) == SendCount(out[1..])
  {
  }

  lemma EnqueueIsSingleFlight(s: QueueState, item: QueueItem, now: int)
    ensures SingleFlight(EnqueueItem(s, item, now).step)
  {
  }

  lemma ReceivedIsSingleFlight(s: QueueState, command: Command, now: int)
    ensures SingleFlight(OnCommandReceived(s, command, now))
  {
    var r := OnCommandReceived(s, command, now);
    if |s.items| > 0 && command.kind.Regular? && IsResponse(s, command) {
      SendCountAfterNonSend(r.out);
    }
  }

  lemma FailedToSendIsSingleFlight(s: QueueState, command: Command, error: SendError, timeout: bool, now: int)
    ensures SingleFlight(OnCommandFailedToSend(s, command, error, timeout, now))
  {
  }

  lemma TickIsSingleFlight(s: QueueState, now: int)
    ensures SingleFlight(SendCommandAgainIfTimeout(s, now))
  {
  }

  lemma AckIsSingleFlight(s: QueueState, command: Command, now: int)
    ensures SingleFlight(OnCommandSent(s, command, now))
  {
    var r := OnCommandSent(s, command, now);
    if |s.items| > 0 && IsSameCommand(s.items[0].commandSent, command) {
      SendCountAfterNonSend(r.out);
    }
  }

  /** Each event hands at most one command to the transport: the one now at the head. */
  lemma ApplyIsSingleFlight(s: QueueState, t: Timed)
    ensures SingleFlight(Apply(s, t))
  {
    var r := Apply(s, t);
    match t.event {
      case Enqueue(command) =>
        EnqueueIsSingleFlight(s, NewItem(command, None), t.now);
        assert r == EnqueueItem(s, NewItem(command, None), t.now).step;
      case EnqueueWithResponse(command, responseType) =>
        EnqueueIsSingleFlight(s, NewItem(command, responseType), t.now);
        assert r == EnqueueItem(s, NewItem(command, responseType), t.now).step;
      case EnqueueWithInfo(command, responseType, info) =>
        EnqueueIsSingleFlight(s, NewItemWithInfo(command, responseType, info), t.now);
        assert r == EnqueueItem(s, NewItemWithInfo(command, responseType, info), t.now).step;
      case PurgeEvent =>
        assert r == Step(Purge(s), []);
      case Receive(command) =>
        ReceivedIsSingleFlight(s, command, t.now);
        assert r == OnCommandReceived(s, command, t.now);
      case LinkAck(command) =>
        AckIsSingleFlight(s, command, t.now);
        assert r == OnCommandSent(s, command, t.now);
      case SendFailed(command, error, timeout) =>
        FailedToSendIsSingleFlight(s, command, error, timeout, t.now);
        assert r == OnCommandFailedToSend(s, command, error, timeout, t.now);
      case LinkSendFailed(command, linkError) =>
        FailedToSendIsSingleFlight(s, command, LinkError(linkError), IsTimeout(linkError), t.now);
        assert r == OnCommandFailedToSend(s, command, LinkError(linkError), IsTimeout(linkError), t.now);
      case Tick =>
        TickIsSingleFlight(s, t.now);
        assert r == SendCommandAgainIfTimeout(s, t.now);
    }
  }

  /**
   * The queue is first-in first-out from `before` to `after`: either items
   * were removed from the front only (possibly none, possibly all), or one
   * item was appended at the back.
   */
  predicate KeepsArrivalOrder(before: seq<QueueItem>, after: seq<QueueItem>)
  {
    || (&& |after| <= |before|
        && forall i :: 0 <= i < |after| ==> after[i].commandSent == before[|before| - |after| + i].commandSent)
    || (&& |after| == |before| + 1
        && forall i :: 0 <= i < |before| ==> after[i].commandSent == before[i].commandSent)
  }

  lemma EnqueueKeepsOrder(s: QueueState, item: QueueItem, now: int)
    ensures KeepsArrivalOrder(s.items, EnqueueItem(s, item, now).step.state.items)
  {
  }

  lemma ReceivedKeepsOrder(s: QueueState, command: Command, now: int)
    ensures KeepsArrivalOrder(s.items, OnCommandReceived(s, command, now).state.items)
  {
  }

  lemma FailedToSendKeepsOrder(s: QueueState, command: Command, error: SendError, timeout: bool, now: int)
    ensures KeepsArrivalOrder(s.items, OnCommandFailedToSend(s, command, error, timeout, now).state.items)
  {
  }

  lemma TickKeepsOrder(s: QueueState, now: int)
    ensures KeepsArrivalOrder(s.items, SendCommandAgainIfTimeout(s, now).state.items)
  {
  }

  lemma AckKeepsOrder(s: QueueState, command: Command, now: int)
    ensures KeepsArrivalOrder(s.items, OnCommandSent(s, command, now).state.items)
  {
  }

  /** Every event keeps the queue first-in first-out. */
  lemma ApplyKeepsArrivalOrder(s: QueueState, t: Timed)
    ensures KeepsArrivalOrder(s.items, Apply(s, t).state.items)
  {
    if IsQueueingEvent(t.event) {
      QueueingEventKeepsOrder(s, t);
    } else {
      DeliveryEventKeepsOrder(s, t);
    }
  }

  /** Events raised by the application rather than by the link or the timer. */
  predicate IsQueueingEvent(e: Event)
  {
    e.Enqueue? || e.EnqueueWithResponse? || e.EnqueueWithInfo? || e.PurgeEvent?
  }

  lemma QueueingEventKeepsOrder(s: QueueState, t: Timed)
    requires IsQueueingEvent(t.event)
    ensures KeepsArrivalOrder(s.items, Apply(s, t).state.items)
  {
    var after := Apply(s, t).state.items;
    match t.event {
      case Enqueue(command) =>
        EnqueueKeepsOrder(s, NewItem(command, None), t.now);
        assert after == EnqueueItem(s, NewItem(command, None), t.now).step.state.items;
      case EnqueueWithResponse(command, responseType) =>
        EnqueueKeepsOrder(s, NewItem(command, responseType), t.now);
        assert after == EnqueueItem(s, NewItem(command, responseType), t.now).step.state.items;
      case EnqueueWithInfo(command, responseType, info) =>
        EnqueueKeepsOrder(s, NewItemWithInfo(command, responseType, info), t.now);
        assert after == EnqueueItem(s, NewItemWithInfo(command, responseType, info), t.now).step.state.items;
      case PurgeEvent =>
        assert after == [];
    }
  }

  lemma DeliveryEventKeepsOrder(s: QueueState, t: Timed)
    requires !IsQueueingEvent(t.event)
    ensures KeepsArrivalOrder(s.items, Apply(s, t).state.items)
  {
    var after := Apply(s, t).state.items;
    match t.event {
      case Receive(command) =>
        ReceivedKeepsOrder(s, command, t.now);
        assert after == OnCommandReceived(s, command, t.now).state.items;
      case LinkAck(command) =>
        AckKeepsOrder(s, command, t.now);
        assert after == OnCommandSent(s, command, t.now).state.items;
      case SendFailed(command, error, timeout) =>
        FailedToSendKeepsOrder(s, command, error, timeout, t.now);
        assert after == OnCommandFailedToSend(s, command, error, timeout, t.now).state.items;
      case LinkSendFailed(command, linkError) =>
        FailedToSendKeepsOrder(s, command, LinkError(linkError), IsTimeout(linkError), t.now);
        assert after == OnCommandFailedToSend(s, command, LinkError(linkError), IsTimeout(linkError), t.now).state.items;
      case Tick =>
        TickKeepsOrder(s, t.now);
        assert after == SendCommandAgainIfTimeout(s, t.now).state.items;
    }
  }
}
