/** The entities the generation lifecycle is about, and its timing constants. */
module Types {

  datatype Option<+T> = None | Some(value: T)

  newtype byte = x: int | 0 <= x < 256

  /** Instants and durations, in nanoseconds of one clock. */
  type Time = int

  const MILLISECOND: Time := 1_000_000
  const SECOND: Time := 1_000 * MILLISECOND
  const MINUTE: Time := 60 * SECOND
  const HOUR: Time := 60 * MINUTE

  const START_TIMEOUT: Time := 20 * SECOND
  const PERSISTENCE_TIMEOUT: Time := 4 * SECOND
  const STREAM_START_TIMEOUT: Time := 30 * SECOND
  const STREAM_QUEUED_CEILING: Time := 5 * MINUTE
  const RECORD_PATIENCE: Time := 2 * MINUTE
  const RECORD_PAUSE: Time := 250 * MILLISECOND
  const RECORD_PAUSE_CEILING: Time := 5 * SECOND
  const START_OUTCOME_UNKNOWN_AFTER: Time := 3 * MINUTE
  const CHECK_TIMEOUT: Time := MINUTE
  const STOP_RETRY_WINDOW: Time := 10 * MINUTE
  const RUN_CEILING: Time := 2 * HOUR
  const UNKNOWN_OUTCOME_HOLD: Time := 15 * MINUTE
  /** How long the database goes on with a statement before it gives it up. */
  const STATEMENT_TIMEOUT: Time := 9 * SECOND

  type GenId = nat
  type CallId = nat

  /** What identifies a request among all others: the fields its request key digests. */
  datatype Identity = Identity(
    owner: seq<byte>, purpose: seq<byte>, provider: seq<byte>, streamed: bool, payload: seq<byte>, variant: nat)

  datatype Status = Pending | Running | Succeeded | Failed | Cancelled

  datatype Failure = Rejected | ProviderFailed | NotStarted | OutcomeUnknown

  /** The account that its caller gets of a generation short of success. */
  datatype Reason =
    | OwnerCancelled
    | OutcomeIsUnknown
    | ResultLost
    | StartFailed
    | CallFailed
    | RequestRejected
    | ProviderUnavailable
    | Overdue
    | NotStopped
    | ResponseTooLarge
    | NotRecorded

  /** One row of the table: a call and all that is known of it. */
  datatype Generation = Generation(
    id: GenId,
    key: Identity,
    status: Status,
    startRequestedAt: Option<Time>,
    callId: Option<CallId>,
    cancelRequestedAt: Option<Time>,
    error: Option<Reason>,
    failure: Option<Failure>,
    outcomeUnknownAt: Option<Time>,
    settledAt: Option<Time>,
    expiresAt: Option<Time>)
  {
    predicate Unsettled() {
      status == Pending || status == Running
    }
  }

  /** A row as a statement read it, with the database clock of that read. */
  datatype Snapshot = Snapshot(row: Generation, at: Time)

  datatype CallState = CallQueued | CallRunning | CallSucceeded | CallFailedState | CallCancelled {
    predicate Terminal() {
      this != CallQueued && this != CallRunning
    }
  }

  datatype Usage = Usage(input: int, cachedInput: int, cacheWrite: int, output: int, reasoning: int)

  /** A provider's answer. The database may be unable to store its bytes. */
  datatype Response = Response(body: nat, storable: bool)

  /** The provider's account of one call. */
  datatype Call = Call(state: CallState, response: Option<Response>, usage: Option<Usage>)

  /** What a read or a stop of a known operation comes back with. */
  datatype Reply = Told(call: Call) | Oversized | Transient | Lost

  datatype UsageRecord = UsageRecord(owner: seq<byte>, purpose: seq<byte>, usage: Usage, createdAt: Time)
}
