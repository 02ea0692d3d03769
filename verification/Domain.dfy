/** The values that flow through the service: enums, configuration, table rows and message bodies. */
module Domain {

  datatype Option<+T> = None | Some(value: T)

  datatype Channel = Email | Sms | Push
  datatype Priority = Low | Normal | High
  datatype Status = Pending | Processing | Sent | Failed | DeadLettered | Cancelled
  datatype AttemptStatus = Success | TransientFailure | PermanentFailure

  /** What `ProviderRouter::send` does: return, or throw a transient or a permanent ProviderException. */
  datatype Outcome = Accepted | TransientError | PermanentError

  type Id = nat   // a UUID
  type Key = nat  // an idempotency key

  /** The part of Config the protocol reads; `workers` lists the channel each WorkerThread consumes. */
  datatype Config = Config(maxRetries: int, retryDelaysMs: seq<nat>, workers: seq<Channel>)

  /** A row of `notifications`, without the text columns. */
  datatype Row = Row(key: Key, channel: Channel, priority: Priority, status: Status, attemptCount: nat)

  /** A row of `delivery_attempts`; its (notification, attempt number) key is the key of the table's map. */
  datatype AttemptRow = AttemptRow(channel: Channel, status: AttemptStatus)

  datatype OutboxEvent = OutboxEvent(notification: Id, payload: Id)

  /** The JSON body of a queued message. */
  datatype Message = Message(id: Id, attempt: nat, priority: nat)

  function PriorityWeight(p: Priority): nat {
    match p
    case Low => 1
    case Normal => 3
    case High => 5
  }

  /** The highest attempt number that the ladder retries after; a negative maxRetries acts as zero. */
  function Retries(cfg: Config): nat {
    if cfg.maxRetries < 0 then 0 else cfg.maxRetries
  }
}
