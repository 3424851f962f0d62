/**
 * Queue items (QueueItem.java) and the abstract commands they carry. Byte
 * decoding is outside the model: a command arrives already resolved.
 */
module QueueItems {
  import opened Wrappers

  /** The (identifier, type) pair by which the queue tells commands apart. */
  datatype Signature = Signature(identifier: int, commandType: int)

  /** Stands for a command's runtime class, as compared with an item's expected response class. */
  type ClassTag = int

  /** Opaque context a caller attaches to an item. */
  type Info = int

  /**
   * What the resolver made of a payload: a failure message naming the
   * (identifier, type) of the command that failed, or any other command.
   */
  datatype Kind = Regular | FailureMessage(failed: Signature)

  datatype Command = Command(identifier: int, commandType: int, length: int, cls: ClassTag, kind: Kind)
  {
    function Sig(): Signature
    {
      Signature(identifier, commandType)
    }
  }

  /** The link's error classification; only `TimeOut` matters to the queue. */
  datatype LinkErrorType = TimeOut | OtherLinkError(code: int)

  /** The error object a transport reports with a failed send. */
  datatype SendError = LinkError(linkType: LinkErrorType) | TransportError(code: int)

  /**
   * A queued command with its delivery state. `timeSent` is the dispatch time
   * in milliseconds, `None` while the item waits to be (re)sent.
   */
  datatype QueueItem = QueueItem(
    commandSent: Command,
    responseClass: Option<ClassTag>,
    info: Option<Info>,
    timeout: bool,
    sdkError: Option<SendError>,
    failure: Option<Command>,
    timeSent: Option<int>,
    retryCount: nat)

  /** An item in its initial state: never sent, never retried, nothing recorded. */
  predicate Pristine(item: QueueItem)
  {
    && item.timeSent.None?
    && item.retryCount == 0
    && !item.timeout
    && item.sdkError.None?
    && item.failure.None?
  }

  /** `new QueueItem(commandSent, responseClass)`. */
  function NewItem(commandSent: Command, responseClass: Option<ClassTag>): (item: QueueItem)
    ensures Pristine(item)
    ensures item.commandSent == commandSent && item.responseClass == responseClass
    ensures item.info.None?
  {
    QueueItem(commandSent, responseClass, None, false, None, None, None, 0)
  }

  /** `new QueueItem(commandSent, responseClass, info)`. */
  function NewItemWithInfo(commandSent: Command, responseClass: Option<ClassTag>, info: Info): (item: QueueItem)
    ensures Pristine(item)
    ensures item.commandSent == commandSent && item.responseClass == responseClass
    ensures item.info == Some(info)
  {
    NewItem(commandSent, responseClass).(info := Some(info))
  }

  /** The two constructors differ in the info field only. */
  lemma ConstructorsAgree(commandSent: Command, responseClass: Option<ClassTag>, info: Info)
    ensures NewItemWithInfo(commandSent, responseClass, info).(info := None) == NewItem(commandSent, responseClass)
  {
  }
}
