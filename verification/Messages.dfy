/** The message record that every part of the system passes around, and the errors queues return. */
module Messages {

  datatype QueueError = QueueNotFound | QueueFull | QueueEmpty | IndexOutOfRange

  datatype Result<+T> = Ok(value: T) | Err(error: QueueError)

  datatype Option<+T> = None | Some(value: T)

  /** Durations and clock readings count nanoseconds. */
  const MILLISECOND: int := 1_000_000
  const SECOND: int := 1000 * MILLISECOND
  const DAY: int := 24 * 3600 * SECOND

  const REALTIME: int := 1
  const HIGH: int := 2
  const NORMAL: int := 3
  const LOW: int := 4

  /** Priority.String(), which is also what printing a Priority yields. */
  function PriorityName(priority: int): string {
    if priority == REALTIME then "realtime"
    else if priority == HIGH then "high"
    else if priority == NORMAL then "normal"
    else if priority == LOW then "low"
    else "unknown"
  }

  /** What a priority rule may look at. */
  datatype MessageData = MessageData(id: string, content: string, metadata: map<string, string>,
                                     priority: int, retryCount: int)

  class Message {
    const id: string
    const content: string
    const metadata: map<string, string>
    var priority: int
    var retryCount: int
    var scheduledAt: int

    constructor (id: string, content: string, metadata: map<string, string>, priority: int)
      ensures Data() == MessageData(id, content, metadata, priority, 0)
    {
      this.id, this.content, this.metadata := id, content, metadata;
      this.priority, this.retryCount, this.scheduledAt := priority, 0, 0;
    }

    function Data(): MessageData
      reads this
    {
      MessageData(id, content, metadata, priority, retryCount)
    }
  }
}
