/** What a check owes its generation, in terms of what it read, what the provider answered and what the tables hold. */
module Outcomes {
  import opened Types
  import S = Store

  /** How a check ends: the generation as it left it, another check's commit found instead, or an error. */
  datatype Checked = Left(row: Generation) | Overtaken | Broken

  predicate Stuck(read: Snapshot, onGet: Reply, age: Time) {
    onGet.Told? && onGet.call.state == CallQueued && read.row.key.streamed && age >= 5 * MINUTE
  }

  /** Since when the stop of a recorded call is wanted: the earlier of its owner's cancel and its second hour, once either
    * is there, or else the fifth minute of a streamed call found still queued after it. */
  ghost predicate StopFrom(read: Snapshot, onGet: Reply, since: Option<Time>)
    requires read.row.startRequestedAt.Some?
  {
    var start, cancel := read.row.startRequestedAt.value, read.row.cancelRequestedAt;
    var age := read.at - start;
    if cancel.Some? || age >= 2 * HOUR then
      && since.Some?
      && (since == cancel || (age >= 2 * HOUR && since.value == start + 2 * HOUR))
      && (cancel.Some? ==> since.value <= cancel.value)
      && (age >= 2 * HOUR ==> since.value <= start + 2 * HOUR)
    else if Stuck(read, onGet, age) then since == Some(start + 5 * MINUTE)
    else since.None?
  }

  lemma StopFromOnce(read: Snapshot, onGet: Reply, a: Option<Time>, b: Option<Time>)
    requires read.row.startRequestedAt.Some? && StopFrom(read, onGet, a) && StopFrom(read, onGet, b)
    ensures a == b
  {
  }

  predicate Ends(call: Call) {
    call.state == CallSucceeded || call.state == CallFailedState || call.state == CallCancelled
  }

  /** The tables can hold the call's answer and its usage. */
  predicate Holdable(before: S.Store, g: GenId, call: Call) {
    && (call.response.Some? ==> call.response.value.storable && g !in before.attempts)
    && (call.usage.Some? ==>
          var u := call.usage.value;
          0 <= u.cachedInput <= u.input && 0 <= u.reasoning <= u.output && 0 <= u.cacheWrite)
  }

  /** The row alone changed: it is settled so, at this instant. */
  ghost predicate SettledAs(before: S.Store, after: S.Store, g: GenId, status: Status, failure: Option<Failure>,
                            error: Option<Reason>, at: Time)
  {
    && g in before.rows && g in after.rows && after.rows == before.rows[g := after.rows[g]]
    && var r, q := before.rows[g], after.rows[g];
    && q.status == status && q.failure == failure && q.error == error && q.settledAt == Some(at)
    && (failure == Some(OutcomeUnknown) <==> q.outcomeUnknownAt == Some(at))
    && q == r.(status := q.status, failure := q.failure, error := q.error, settledAt := q.settledAt,
               expiresAt := q.expiresAt, outcomeUnknownAt := q.outcomeUnknownAt)
  }

  ghost predicate FailedBare(before: S.Store, after: S.Store, g: GenId, failure: Failure, error: Reason, at: Time) {
    SettledAs(before, after, g, Failed, Some(failure), Some(error), at)
    && after.attempts == before.attempts && after.usage == before.usage
  }

  /** The call's end is the generation's, with its answer and its usage on record. The first usage on record stays. */
  ghost predicate EndRecorded(before: S.Store, after: S.Store, read: Snapshot, call: Call, cancelled: bool, at: Time) {
    var g := read.row.id;
    && (if call.state == CallSucceeded then SettledAs(before, after, g, Succeeded, None, None, at)
        else if call.state == CallCancelled && cancelled then
          SettledAs(before, after, g, Cancelled, None, Some(OwnerCancelled), at)
        else
          SettledAs(before, after, g, Failed, Some(ProviderFailed),
                    Some(if call.state == CallCancelled then Overdue else Reason.CallFailed), at))
    && after.attempts == (if call.response.Some? then before.attempts[g := call.response.value] else before.attempts)
    && after.usage == (if call.usage.None? || g in before.usage then before.usage
                       else before.usage[g := UsageRecord(read.row.key.owner, read.row.key.purpose, call.usage.value, at)])
  }

  /** The call has not been seen to end, nor to be out of reach, and no stop of it has been wanted for ten minutes. */
  predicate Pending(reply: Reply, since: Option<Time>, at: Time) {
    && ((reply.Told? && !Ends(reply.call)) || reply.Transient?)
    && (since.None? || at - since.value < 10 * MINUTE)
  }

  /** What a check of a recorded call leaves, given the answer it heard and since when the stop is wanted. `marked` is the
    * owner's cancel on the row as it stands. */
  ghost predicate Rightly(before: S.Store, after: S.Store, read: Snapshot, reply: Reply, since: Option<Time>,
                          marked: bool, checked: Checked, at: Time)
    requires read.row.startRequestedAt.Some?
  {
    var g := read.row.id;
    // the row stays as it is exactly while its call is pending
    && (checked == Left(read.row) <==> Pending(reply, since, read.at))
    && (Pending(reply, since, read.at) ==> after == before)
    && (checked.Left? && checked.row != read.row ==> g in after.rows && checked.row == after.rows[g])
    // a call that ended settles it, when the tables can hold its end
    && (reply.Told? && Ends(reply.call) && Holdable(before, g, reply.call) ==>
          && EndRecorded(before, after, read, reply.call, read.row.cancelRequestedAt.Some? || (since.None? && marked), at)
          && checked.Left?)
    // and two hours and ten minutes on, even when they cannot
    && (reply.Told? && Ends(reply.call) && !Holdable(before, g, reply.call) ==>
          if read.at - read.row.startRequestedAt.value >= 2 * HOUR + 10 * MINUTE
          then FailedBare(before, after, g, ProviderFailed, NotRecorded, at) && checked.Left?
          else after == before && checked.Broken?)
    // a call out of reach settles it too, as unknown unless it is gone from the provider
    && (reply.Lost? ==> FailedBare(before, after, g, ProviderFailed, ResultLost, at) && checked.Left?)
    && (reply.Oversized? ==> FailedBare(before, after, g, OutcomeUnknown, Reason.ResponseTooLarge, at) && checked.Left?)
    && (((reply.Told? && !Ends(reply.call)) || reply.Transient?) && !Pending(reply, since, read.at) ==>
          FailedBare(before, after, g, OutcomeUnknown, NotStopped, at) && checked.Left?)
  }

  /** What a check leaves of a generation without a call to ask about. */
  ghost predicate RightlyIdle(before: S.Store, after: S.Store, read: Snapshot, checked: Checked, at: Time) {
    var r := read.row;
    if r.startRequestedAt.Some? && read.at - r.startRequestedAt.value < 3 * MINUTE then
      after == before && checked == Left(r)
    else
      && checked.Left? && r.id in after.rows && checked.row == after.rows[r.id]
      && after.attempts == before.attempts && after.usage == before.usage
      && if r.startRequestedAt.Some? then FailedBare(before, after, r.id, OutcomeUnknown, OutcomeIsUnknown, at)
         else if r.cancelRequestedAt.Some? then SettledAs(before, after, r.id, Cancelled, None, Some(OwnerCancelled), at)
         else FailedBare(before, after, r.id, Failure.NotStarted, StartFailed, at)
  }
}
