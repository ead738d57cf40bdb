/** What a check decides from what it read and what the provider answers. */
module Check {
  import opened Types
  import S = Store

  /** How a check settles a generation: the outcome, and the answer recorded with it. */
  datatype Plan = Plan(
    status: Status, error: Option<Reason>, failure: Option<Failure>,
    response: Option<Response>, usage: Option<Usage>)

  datatype Verdict = Keep | Give(plan: Plan) | Relabel(call: Call)

  function RequestOf(r: Generation, plan: Plan): S.SettleRequest {
    S.SettleRequest(r.id, r.startRequestedAt, r.callId, plan.status, plan.error, plan.failure,
                    plan.failure == Some(OutcomeUnknown))
  }

  /** A failure in this service's words, with the provider's error body when it gave one. */
  function FailPlan(reason: Reason, failure: Failure, response: Option<Response>): Plan {
    Plan(Failed, Some(reason), Some(failure), response, None)
  }

  /** A call this service stopped unasked ran past a ceiling, so its generation fails. */
  function SettlePlan(cancelRequested: bool, call: Call): Plan {
    match call.state
    case CallSucceeded => Plan(Succeeded, None, None, call.response, call.usage)
    case CallCancelled =>
      if cancelRequested then Plan(Cancelled, Some(OwnerCancelled), None, call.response, call.usage)
      else Plan(Failed, Some(Overdue), Some(ProviderFailed), call.response, call.usage)
    case _ => Plan(Failed, Some(Reason.CallFailed), Some(ProviderFailed), call.response, call.usage)
  }

  predicate Observable(read: Snapshot) {
    read.row.callId.Some? && read.row.startRequestedAt.Some?
  }

  function Age(read: Snapshot): Time
    requires read.row.startRequestedAt.Some?
  {
    read.at - read.row.startRequestedAt.value
  }

  /** When the stop of a call was first wanted: its owner's cancel, or the run ceiling when that came first. */
  function StopSince(read: Snapshot): Option<Time>
    requires read.row.startRequestedAt.Some?
  {
    var ceiling := read.row.startRequestedAt.value + RUN_CEILING;
    var cancel := read.row.cancelRequestedAt;
    if Age(read) >= RUN_CEILING && (cancel.None? || ceiling < cancel.value) then Some(ceiling) else cancel
  }

  /** The provider left a streamed call in its queue for too long. */
  predicate StuckQueued(read: Snapshot, reply: Reply)
    requires read.row.startRequestedAt.Some?
  {
    reply.Told? && read.row.key.streamed && reply.call.state == CallQueued && Age(read) >= STREAM_QUEUED_CEILING
  }

  function QueuedSince(read: Snapshot): Time
    requires read.row.startRequestedAt.Some?
  {
    read.row.startRequestedAt.value + STREAM_QUEUED_CEILING
  }

  function Judge(read: Snapshot, reply: Reply, since: Option<Time>): Verdict {
    if reply.Told? && reply.call.state.Terminal() then
      if reply.call.state == CallCancelled && read.row.cancelRequestedAt.None? && since.None? then Relabel(reply.call)
      else Give(SettlePlan(read.row.cancelRequestedAt.Some?, reply.call))
    else if reply.Oversized? then Give(FailPlan(Reason.ResponseTooLarge, OutcomeUnknown, None))
    else if reply.Lost? then Give(FailPlan(ResultLost, ProviderFailed, None))
    else if since.None? || read.at - since.value < STOP_RETRY_WINDOW then Keep
    else Give(FailPlan(NotStopped, OutcomeUnknown, None))
  }

  /** The age from which a refused answer fails its generation without the answer. */
  predicate PastGivingUp(read: Snapshot) {
    read.row.startRequestedAt.Some? && Age(read) >= RUN_CEILING + STOP_RETRY_WINDOW
  }

  const UNRECORDED: Plan := FailPlan(NotRecorded, ProviderFailed, None)

  datatype Route = Done | Observe | Wait | Conclude(plan: Plan)

  /** What a check that holds no start does with the generation it read. */
  function RouteOf(read: Snapshot): Route {
    var r := read.row;
    if r.settledAt.Some? then Done
    else if r.callId.Some? then Observe
    else if r.startRequestedAt.Some? then
      if Age(read) < START_OUTCOME_UNKNOWN_AFTER then Wait
      else Conclude(FailPlan(OutcomeIsUnknown, OutcomeUnknown, None))
    else if r.cancelRequestedAt.Some? then Conclude(SettlePlan(true, Call(CallCancelled, None, None)))
    else Conclude(FailPlan(StartFailed, NotStarted, None))
  }

  // ---------- which plans keep the rows well formed ----------

  /** The plan fits a row that carries `call` or none, was asked to stop or not, and started or not. */
  predicate Fits(plan: Plan, call: Option<CallId>, cancelled: bool, started: bool) {
    && (plan.status == Succeeded || plan.status == Failed || plan.status == Cancelled)
    && (plan.status == Failed <==> plan.failure.Some?)
    && (plan.error.None? <==> plan.status == Succeeded)
    && (plan.status == Succeeded ==> call.Some?)
    && (plan.failure == Some(ProviderFailed) ==> call.Some?)
    && (plan.failure == Some(Rejected) || plan.failure == Some(NotStarted) ==> call.None?)
    && (plan.status == Cancelled ==> cancelled && (call.None? ==> !started))
  }

  /** Without a call, only three outcomes are not unknown. */
  lemma FitsWithoutCall(plan: Plan, cancelled: bool, started: bool)
    requires Fits(plan, None, cancelled, started) && plan.failure != Some(OutcomeUnknown)
    ensures plan.failure == Some(Rejected) || plan.failure == Some(NotStarted) || (plan.status == Cancelled && !started)
  {
    if plan.failure.Some? {
      match plan.failure.value
      case Rejected =>
      case ProviderFailed =>
      case NotStarted =>
      case OutcomeUnknown =>
    }
  }

  lemma SettledRowWellFormed(r: Generation, q: Generation, plan: Plan, at: Time, retention: Time)
    requires S.WellFormed(q) && S.Fenced(q, RequestOf(r, plan))
    requires Fits(plan, q.callId, q.cancelRequestedAt.Some?, q.startRequestedAt.Some?)
    ensures S.Admissible(RequestOf(r, plan))
    ensures var settled := S.SettledRow(q, RequestOf(r, plan), at, retention);
      S.WellFormed(settled) && S.Precedes(q, settled) && !settled.Unsettled()
  {
  }

  lemma JudgeFits(read: Snapshot, reply: Reply, since: Option<Time>)
    requires Observable(read)
    ensures var v := Judge(read, reply, since);
      v.Give? ==> Fits(v.plan, read.row.callId, read.row.cancelRequestedAt.Some?, true)
  {
  }

  /** A call that may still run leaves its generation unknown, which keeps its owner's slot a while. A call seen to end,
    * or gone from the provider, does not. */
  lemma GivenUpKeepsSlot(read: Snapshot, reply: Reply, since: Option<Time>)
    requires Observable(read) && Judge(read, reply, since).Give?
    ensures Judge(read, reply, since).plan.failure == Some(OutcomeUnknown)
      <==> !(reply.Lost? || (reply.Told? && reply.call.state.Terminal()))
  {
  }

  /** What its caller is told of a generation that an answer settled. */
  lemma AccountsExactly(read: Snapshot, reply: Reply, since: Option<Time>)
    requires Observable(read) && Judge(read, reply, since).Give?
    ensures var error := Judge(read, reply, since).plan.error;
      var state := if reply.Told? then reply.call.state else CallRunning;
      && (error == None <==> state == CallSucceeded)
      && (error == Some(Reason.CallFailed) <==> state == CallFailedState)
      && (error == Some(OwnerCancelled) <==> state == CallCancelled && read.row.cancelRequestedAt.Some?)
      && (error == Some(Overdue) <==> state == CallCancelled && read.row.cancelRequestedAt.None?)
      && (error == Some(ResultLost) <==> reply.Lost?)
      && (error == Some(Reason.ResponseTooLarge) <==> reply.Oversized?)
      && (error == Some(NotStopped) <==>
            reply.Transient? || (reply.Told? && (state == CallQueued || state == CallRunning)))
  {
  }

  lemma RouteFits(read: Snapshot)
    requires S.WellFormed(read.row)
    ensures var v := RouteOf(read);
      v.Conclude? ==> Fits(v.plan, read.row.callId, read.row.cancelRequestedAt.Some?, read.row.startRequestedAt.Some?)
  {
  }

  // ---------- the stop instant ----------

  /** Across reads of one generation, a stop that is wanted stays wanted, and never counts from later. */
  lemma StopSinceNeverLater(r: Snapshot, q: Snapshot)
    requires r.row.startRequestedAt.Some? && S.Precedes(r.row, q.row) && r.at <= q.at
    requires q.row.cancelRequestedAt.Some? && r.row.cancelRequestedAt.None? ==> r.at <= q.row.cancelRequestedAt.value
    requires StopSince(r).Some?
    ensures StopSince(q).Some? && StopSince(q).value <= StopSince(r).value
  {
  }

  /** Exactly when a cancel moves back the instant a stuck queued call was first wanted stopped. */
  lemma CancelDelaysQueuedStop(r: Snapshot, q: Snapshot)
    requires Observable(r) && StopSince(r).None? && S.Precedes(r.row, q.row) && StopSince(q).Some?
    ensures StopSince(q).value > QueuedSince(r)
      <==> (q.row.cancelRequestedAt.None? || q.row.cancelRequestedAt.value > QueuedSince(r))
  {
  }

  /** One such generation: stuck since its fifth minute, cancelled in its ninth. */
  lemma CancelDelaysQueuedStopExample(key: Identity) returns (r: Snapshot, q: Snapshot)
    requires key.streamed
    ensures Observable(r) && StuckQueued(r, Told(Call(CallQueued, None, None)))
    ensures S.Precedes(r.row, q.row) && r.at < q.at && StopSince(q).Some? && StopSince(q).value > QueuedSince(r)
  {
    var row := S.RecordedRow(S.NewRow(1, key, 0), 7);
    r := Snapshot(row, 8 * MINUTE);
    q := Snapshot(S.CancelledRow(row, 9 * MINUTE, HOUR), 10 * MINUTE);
  }

  /** A cancel that lands after the read of a check that stops the call for its ceiling does not label its end: one row
    * that a check read at its second hour, cancelled a second later, and fails as overdue. */
  lemma CancelAfterReadExample(key: Identity, response: Response) returns (read: Snapshot, row: Generation)
    ensures Observable(read) && read.row.cancelRequestedAt.None? && StopSince(read).Some?
    ensures S.Precedes(read.row, row) && row.cancelRequestedAt == Some(read.at + SECOND)
    ensures Judge(read, Told(Call(CallCancelled, Some(response), None)), StopSince(read))
      == Give(Plan(Failed, Some(Overdue), Some(ProviderFailed), Some(response), None))
  {
    read := Snapshot(S.RecordedRow(S.NewRow(1, key, 0), 7), 2 * HOUR);
    row := S.CancelledRow(read.row, read.at + SECOND, HOUR);
  }

  /** The wait for a stop is bounded: past the ceiling and its retry window, every reply settles the call. */
  lemma PastGivingUpNeverKeeps(read: Snapshot, reply: Reply)
    requires Observable(read) && PastGivingUp(read)
    ensures StopSince(read).Some? && Judge(read, reply, StopSince(read)).Give?
  {
  }
}
