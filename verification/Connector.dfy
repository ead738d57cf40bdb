/** How the connector tells a start that ran nothing from one that may have been accepted. */
module Connector {
  import opened Types
  import opened Check

  /** Why a start came back without a call: no answer, an error status, or an answer naming no call. */
  datatype StartError = Transport | Status(code: int, quota: bool) | Unnamed

  datatype StartClass = Rejection | Retryable | Ambiguous

  function ClassifyStart(error: StartError, sent: bool): StartClass {
    match error
    case Transport => if sent then Ambiguous else Retryable
    case Unnamed => Ambiguous
    case Status(code, quota) =>
      if code == 429 && quota then Rejection
      else if code == 429 || code == 401 || code == 409 then Retryable
      else if code == 408 || code >= 500 then Ambiguous
      else Rejection
  }

  /** A status that says the provider accepted nothing: a 4xx answer, except a request timeout. */
  predicate Definitive(code: int) {
    400 <= code < 500 && code != 408
  }

  /** A start the provider never accepted settles on its first outcome. */
  function StartFailurePlan(kind: StartClass, body: Option<Response>): Plan {
    match kind
    case Rejection => FailPlan(RequestRejected, Rejected, body)
    case Ambiguous => FailPlan(OutcomeIsUnknown, OutcomeUnknown, None)
    case Retryable => FailPlan(StartFailed, NotStarted, None)
  }

  /** A failed start is ambiguous exactly when its request may have been accepted: it left, and no definitive refusal
    * came back. */
  lemma AmbiguousExactly(error: StartError, sent: bool)
    requires error.Status? ==> error.code >= 400
    ensures ClassifyStart(error, sent) != Ambiguous
      <==> (error.Transport? && !sent) || (error.Status? && Definitive(error.code))
  {
  }

  /** A status that is this service's to mend or the provider's to lift: refused credentials, a lock, a rate. */
  predicate Passing(code: int, quota: bool) {
    code == 401 || code == 409 || (code == 429 && !quota)
  }

  /** Of the starts that ran nothing, the caller's own request is at fault exactly for the other definitive statuses, a
    * spent quota among them, and its failure carries the provider's words. No other failure does. */
  lemma RejectionExactly(error: StartError, sent: bool, body: Option<Response>)
    requires error.Status? ==> error.code >= 400
    ensures var plan := StartFailurePlan(ClassifyStart(error, sent), body);
      var refused := error.Status? && 400 <= error.code < 500 && error.code != 408;
      var passing := refused && (error.code in {401, 409} || (error.code == 429 && !error.quota));
      && plan.status == Failed && plan.usage.None?
      && (plan.failure == Some(Rejected) <==> refused && !passing)
      && (plan.failure == Some(NotStarted) <==>
            (error.Transport? && !sent) || passing)
      && (plan.failure == Some(OutcomeUnknown) <==>
            error.Unnamed? || (error.Transport? && sent) || (error.Status? && !refused))
      && plan.response == (if plan.failure == Some(Rejected) then body else None)
      && plan.error == Some(if plan.failure == Some(Rejected) then RequestRejected
                            else if plan.failure == Some(NotStarted) then StartFailed else OutcomeIsUnknown)
  {
  }

  // ---------- reads and stops ----------

  datatype RawStatus = Completed | Incomplete | FailedRun | CancelledRun | Queued | InProgress | OtherStatus

  /** The provider's own object for an operation. */
  datatype RawCall = RawCall(status: RawStatus, response: Response, usage: Option<Usage>)

  /** An output cut at its limit is finished too, and a status this service does not know reads as running. */
  function StateOf(status: RawStatus): CallState {
    match status
    case Completed => CallSucceeded
    case Incomplete => CallSucceeded
    case FailedRun => CallFailedState
    case CancelledRun => CallCancelled
    case Queued => CallQueued
    case InProgress => CallRunning
    case OtherStatus => CallRunning
  }

  /** A call that has not ended has no answer and no usage to report. */
  function CallOf(raw: RawCall): (call: Call)
    ensures call.state == CallSucceeded <==> raw.status == Completed || raw.status == Incomplete
    ensures call.state == CallFailedState <==> raw.status == FailedRun
    ensures call.state == CallCancelled <==> raw.status == CancelledRun
    ensures call.state == CallQueued <==> raw.status == Queued
    ensures call.state.Terminal() <==> call.response.Some?
    ensures !call.state.Terminal() ==> call.usage.None?
    ensures call.state.Terminal() ==> call.response == Some(raw.response) && call.usage == raw.usage
  {
    var state := StateOf(raw.status);
    if state.Terminal() then Call(state, Some(raw.response), raw.usage) else Call(state, None, None)
  }

  /** What a request about a known operation comes back with. */
  datatype Fetch = Body(raw: RawCall) | Garbled | TooLarge | NoAnswer | Refused(code: int)

  /** Whether asking again is worth it: refused credentials say nothing about the operation, a not-found does. */
  function ReadReply(fetch: Fetch): Reply {
    match fetch
    case Body(raw) => Told(CallOf(raw))
    case Garbled => Transient
    case TooLarge => Oversized
    case NoAnswer => Transient
    case Refused(code) =>
      if code == 429 || code == 408 || code == 401 || code == 403 || code >= 500 then Transient else Lost
  }

  /** The provider refuses to cancel a call that ended, whose answer is then read. */
  function CancelReply(post: Fetch, get: Fetch): Reply {
    if post == Refused(400) then ReadReply(get) else ReadReply(post)
  }

  /** A fault that passes: silence, a garbled body, a timeout, a rate limit, refused credentials, or the provider's own. */
  predicate PassingFault(fetch: Fetch) {
    || fetch.NoAnswer? || fetch.Garbled?
    || (fetch.Refused? && (fetch.code in {401, 403, 408, 429} || fetch.code >= 500))
  }

  /** Only a refusal that says the operation cannot be read loses the call, and a stop is heard from its read exactly when
    * the provider refuses it with a 400. */
  lemma RepliesExactly(post: Fetch, get: Fetch)
    ensures ReadReply(get).Lost? <==> get.Refused? && get.code < 500 && get.code !in {401, 403, 408, 429}
    ensures ReadReply(get).Oversized? <==> get.TooLarge?
    ensures ReadReply(get).Told? <==> get.Body?
    ensures get.Body? ==> ReadReply(get).call == CallOf(get.raw)
    ensures ReadReply(get).Transient? <==> PassingFault(get)
    ensures CancelReply(post, get) == ReadReply(if post.Refused? && post.code == 400 then get else post)
  {
  }

  /** A stop that comes too late loses nothing: the call settles with its own end, answer and usage. */
  lemma LateStopSettles(read: Snapshot, raw: RawCall, since: Time)
    requires Observable(read) && CallOf(raw).state.Terminal()
    ensures var v := Judge(read, CancelReply(Refused(400), Body(raw)), Some(since));
      && v == Give(SettlePlan(read.row.cancelRequestedAt.Some?, CallOf(raw)))
      && v.plan.response == Some(raw.response) && v.plan.usage == raw.usage
      && (v.plan.status == Succeeded <==> StateOf(raw.status) == CallSucceeded)
  {
  }
}
