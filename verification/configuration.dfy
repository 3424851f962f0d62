/**
 * The queue configurations of QueueConfiguration.kt: a response timeout in
 * milliseconds, the number of times an item is retried, and the delay before
 * an item is handed to the transport.
 */
module Configuration {

  datatype QueueConfiguration = QueueConfiguration(timeout: int, retryCount: int, delay: int)

  /** `QueueConfiguration()` with every argument left at its default. */
  function DefaultConfiguration(): (c: QueueConfiguration)
    ensures c.timeout == 0 && c.retryCount == 0 && c.delay == 0
  {
    QueueConfiguration(0, 0, 0)
  }

  /**
   * `BleQueueConfiguration(timeout, retryCount, delay)`: the given timeout is an
   * extra buffer on top of the link's own ack timeout, which is a parameter here.
   */
  function BleQueueConfiguration(extraTimeout: int, retryCount: int, delay: int, linkCommandTimeout: int): (c: QueueConfiguration)
    ensures c.timeout - linkCommandTimeout == extraTimeout
    ensures c.retryCount == retryCount && c.delay == delay
  {
    QueueConfiguration(extraTimeout + linkCommandTimeout, retryCount, delay)
  }

  /** The fixed timeout of the telematics configuration, in milliseconds. */
  const TelematicsTimeout: int := 120000

  /** `TelematicsQueueConfiguration(retryCount, delay)`: the request owns the timeout. */
  function TelematicsQueueConfiguration(retryCount: int, delay: int): (c: QueueConfiguration)
    ensures c.timeout == 120000
    ensures c.retryCount == retryCount && c.delay == delay
  {
    QueueConfiguration(TelematicsTimeout, retryCount, delay)
  }

  /** The telematics timeout does not depend on the arguments. */
  lemma TelematicsTimeoutIsFixed(retryCount1: int, delay1: int, retryCount2: int, delay2: int)
    ensures TelematicsQueueConfiguration(retryCount1, delay1).timeout
         == TelematicsQueueConfiguration(retryCount2, delay2).timeout
  {
  }
}
