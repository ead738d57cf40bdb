/** One check, one stop and one cancel as they run, step by step, over the database and the provider. */
module Checker {
  import opened Types
  import opened Check
  import C = Connector
  import opened Database
  import opened Outcomes
  import S = Store

  /** What the provider answers when asked for a call, and when asked to cancel it. */
  datatype Provider = Provider(served: bool, onGet: Reply, onCancel: Reply)

  ghost predicate RowsWellFormed(rows: map<GenId, Generation>) {
    forall g :: g in rows ==> rows[g].id == g && S.WellFormed(rows[g])
  }

  /** The read is one the database answered at some point: an earlier version of the row, when it is still there. */
  ghost predicate ReadBefore(rows: map<GenId, Generation>, read: Snapshot) {
    && RowsWellFormed(rows) && S.WellFormed(read.row)
    && (read.row.id in rows ==> S.Precedes(read.row, rows[read.row.id]))
  }

  /** The run the check read is still the row's, and is not settled. */
  predicate Current(rows: map<GenId, Generation>, read: Snapshot) {
    && read.row.id in rows && rows[read.row.id].Unsettled()
    && rows[read.row.id].callId == read.row.callId
    && rows[read.row.id].startRequestedAt == read.row.startRequestedAt
  }

  /** Every check settles what it reads at such an age: past a ceiling, or long without a call id. */
  predicate LastCheck(read: Snapshot) {
    if read.row.callId.Some? then PastGivingUp(read)
    else read.row.startRequestedAt.None? || Age(read) >= START_OUTCOME_UNKNOWN_AFTER
  }

  /** One settle landed with its answer and its usage, and nothing else changed. */
  ghost predicate SettledOnce(before: S.Store, after: S.Store, read: Snapshot, plan: Plan, at: Time, retention: Time) {
    && Current(before.rows, read)
    && S.Commit(before, RequestOf(read.row, plan), plan.response, plan.usage, read.row.key, at, retention).0 == after
    && S.Commit(before, RequestOf(read.row, plan), plan.response, plan.usage, read.row.key, at, retention).1.Landed?
  }

  /** What a check may do to the database: nothing, or one whole settle of the run it read. */
  ghost predicate ChecksOnly(before: S.Store, after: S.Store, read: Snapshot, at: Time, retention: Time) {
    after == before || exists plan :: SettledOnce(before, after, read, plan, at, retention)
  }

  /** A check that read an outdated run changes nothing, and no check touches another row or a settled one. */
  lemma ChecksOnlyIsSafe(before: S.Store, after: S.Store, read: Snapshot, at: Time, retention: Time)
    requires ChecksOnly(before, after, read, at, retention)
    ensures !Current(before.rows, read) ==> after == before
    ensures after.rows.Keys == before.rows.Keys
    ensures forall g :: g in before.rows && g != read.row.id ==> after.rows[g] == before.rows[g]
    ensures forall g :: g in before.rows ==> S.Precedes(before.rows[g], after.rows[g])
    ensures forall g :: g in before.usage ==> g in after.usage && after.usage[g] == before.usage[g]
    ensures forall g :: g in before.attempts ==> g in after.attempts && after.attempts[g] == before.attempts[g]
  {
  }

  // ---------- what a check decides, as a value ----------

  /** The request whose answer the check hears: the read, or the stop, or the read after a stop that came too late. */
  function HeardFetch(since: Option<Time>, get: C.Fetch, post: C.Fetch, again: C.Fetch): C.Fetch {
    if since.None? then get else if post == C.Refused(400) then again else post
  }

  /** No fault that passes settles a call whose stop was not wanted ten minutes before: whatever a check may leave that does
    * right by it is the row as it was. */
  lemma FaultsSettleNothing(before: S.Store, after: S.Store, read: Snapshot, get: C.Fetch, post: C.Fetch, again: C.Fetch,
                            since: Option<Time>, checked: Checked, at: Time)
    requires Observable(read) && StopFrom(read, C.ReadReply(get), since)
    requires RightlyHeard(before, after, read, Provider(true, C.ReadReply(get), C.CancelReply(post, again)), checked, at)
    requires C.PassingFault(HeardFetch(since, get, post, again)) && (since.Some? ==> read.at - since.value < 10 * MINUTE)
    ensures after == before && checked == Left(read.row)
  {
    C.RepliesExactly(post, get);
    C.RepliesExactly(post, again);
    C.RepliesExactly(post, post);
    hide StopFrom;
  }

  /** Only an answer that the operation is not there loses a call: not by silence, nor by the service's own credentials. */
  lemma LostSettlesFailed(before: S.Store, after: S.Store, read: Snapshot, get: C.Fetch, post: C.Fetch, again: C.Fetch,
                          since: Option<Time>, checked: Checked, at: Time)
    requires Observable(read) && StopFrom(read, C.ReadReply(get), since)
    requires RightlyHeard(before, after, read, Provider(true, C.ReadReply(get), C.CancelReply(post, again)), checked, at)
    requires var heard := HeardFetch(since, get, post, again);
      heard.Refused? && !C.PassingFault(heard)
    ensures FailedBare(before, after, read.row.id, ProviderFailed, ResultLost, at)
  {
    C.RepliesExactly(post, get);
    C.RepliesExactly(post, again);
    C.RepliesExactly(post, post);
    hide StopFrom, FailedBare;
  }

  function StopWanted(read: Snapshot, provider: Provider): Option<Time>
    requires Observable(read)
  {
    if StopSince(read).Some? then StopSince(read)
    else if StuckQueued(read, provider.onGet) then Some(QueuedSince(read)) else None
  }

  /** The settle a check decides on, given whether the owner's cancel is on the row by now. None: it settles nothing. */
  function PlanFor(read: Snapshot, provider: Provider, cancelled: bool): Option<Plan>
    requires S.WellFormed(read.row)
  {
    match RouteOf(read)
    case Done => None
    case Wait => None
    case Conclude(plan) => Some(plan)
    case Observe =>
      if !provider.served then Some(FailPlan(ProviderUnavailable, OutcomeUnknown, None))
      else
        var since := StopWanted(read, provider);
        match Judge(read, if since.Some? then provider.onCancel else provider.onGet, since)
        case Keep => None
        case Relabel(call) => Some(SettlePlan(cancelled, call))
        case Give(plan) => Some(plan)
  }

  /** The settle, or the bare failure in its place when the answer is refused and the call is long past its ceiling. */
  function Settles(before: S.Store, read: Snapshot, plan: Option<Plan>, at: Time, retention: Time): S.Store {
    if plan.None? then before
    else
      var (after, outcome) := S.Commit(before, RequestOf(read.row, plan.value), plan.value.response, plan.value.usage,
                                       read.row.key, at, retention);
      if outcome.Refused? && PastGivingUp(read)
      then S.Commit(before, RequestOf(read.row, Check.UNRECORDED), None, None, read.row.key, at, retention).0
      else after
  }

  /** How the check ends, when the run it read is still the row's. */
  function EndsAs(before: S.Store, read: Snapshot, plan: Option<Plan>, at: Time, retention: Time): Checked {
    if plan.None? then Left(read.row)
    else
      var outcome := S.Commit(before, RequestOf(read.row, plan.value), plan.value.response, plan.value.usage,
                              read.row.key, at, retention).1;
      if outcome.Refused? && PastGivingUp(read)
      then Ended(S.Commit(before, RequestOf(read.row, Check.UNRECORDED), None, None, read.row.key, at, retention).1)
      else Ended(outcome)
  }

  function Ended(outcome: S.Outcome): Checked {
    match outcome
    case Landed(row) => Left(row)
    case Changed => Overtaken
    case Refused => Broken
  }

  lemma StopWantedFrom(read: Snapshot, provider: Provider)
    requires Observable(read)
    ensures StopFrom(read, provider.onGet, StopWanted(read, provider))
    ensures StopFrom(read, provider.onGet, None) <==> StopWanted(read, provider).None?
  {
  }

  /** A commit of the run that was read lands, unless its values are refused. */
  lemma CommitSettlesAs(before: S.Store, read: Snapshot, plan: Plan, at: Time, retention: Time)
    requires ReadBefore(before.rows, read) && Current(before.rows, read)
    requires Fits(plan, read.row.callId, before.rows[read.row.id].cancelRequestedAt.Some?, read.row.startRequestedAt.Some?)
    ensures var (after, outcome) :=
        S.Commit(before, RequestOf(read.row, plan), plan.response, plan.usage, read.row.key, at, retention);
      var g := read.row.id;
      if Holdable(before, g, Call(CallSucceeded, plan.response, plan.usage)) then
        && outcome.Landed? && SettledAs(before, after, g, plan.status, plan.failure, plan.error, at) && outcome.row == after.rows[g]
        && after.attempts == (if plan.response.Some? then before.attempts[g := plan.response.value] else before.attempts)
        && after.usage == (if plan.usage.None? || g in before.usage then before.usage
                           else before.usage[g := UsageRecord(read.row.key.owner, read.row.key.purpose, plan.usage.value, at)])
      else outcome.Refused? && after == before
  {
    SettledRowWellFormed(read.row, before.rows[read.row.id], plan, at, retention);
  }

  /** The plan says what the answer does. */
  predicate Says(plan: Option<Plan>, read: Snapshot, reply: Reply, since: Option<Time>, marked: bool) {
    if Outcomes.Pending(reply, since, read.at) then plan.None?
    else
      && plan.Some?
      && if reply.Told? && Ends(reply.call) then
           && plan.value.response == reply.call.response && plan.value.usage == reply.call.usage
           && (plan.value.status, plan.value.failure, plan.value.error) ==
                if reply.call.state == CallSucceeded then (Succeeded, None, None)
                else if reply.call.state == CallCancelled && (read.row.cancelRequestedAt.Some? || (since.None? && marked))
                then (Cancelled, None, Some(OwnerCancelled))
                else (Failed, Some(ProviderFailed),
                      Some(if reply.call.state == CallCancelled then Overdue else Reason.CallFailed))
         else
           && plan.value.response.None? && plan.value.usage.None? && plan.value.status == Failed
           && plan.value.failure == Some(if reply.Lost? then ProviderFailed else OutcomeUnknown)
           && plan.value.error ==
                Some(if reply.Lost? then ResultLost else if reply.Oversized? then Reason.ResponseTooLarge else NotStopped)
  }

  lemma PlanSays(rows: map<GenId, Generation>, read: Snapshot, provider: Provider)
    requires ReadBefore(rows, read) && Current(rows, read) && Observable(read) && provider.served
    ensures var since, plan := StopWanted(read, provider), PlanFor(read, provider, CancelledNow(rows, read.row.id));
      && Says(plan, read, if since.Some? then provider.onCancel else provider.onGet, since, CancelledNow(rows, read.row.id))
      && (plan.Some? ==> Fits(plan.value, read.row.callId, rows[read.row.id].cancelRequestedAt.Some?, true))
  {
    hide StopSince, StuckQueued, QueuedSince;
  }

  /** A settle of the row shows. */
  lemma SettledShows(before: S.Store, after: S.Store, read: Snapshot, status: Status, failure: Option<Failure>,
                     error: Option<Reason>, at: Time)
    requires ReadBefore(before.rows, read) && Current(before.rows, read)
    requires SettledAs(before, after, read.row.id, status, failure, error, at)
    ensures after.rows[read.row.id] != read.row
  {
  }

  /** A settle that the tables can hold lands. One they cannot is refused, or gives way to the bare failure. */
  lemma CommitEndsAs(before: S.Store, read: Snapshot, plan: Plan, at: Time, retention: Time)
    requires ReadBefore(before.rows, read) && Current(before.rows, read) && Observable(read)
    requires Fits(plan, read.row.callId, before.rows[read.row.id].cancelRequestedAt.Some?, true)
    ensures var after, checked := Settles(before, read, Some(plan), at, retention), EndsAs(before, read, Some(plan), at, retention);
      var g := read.row.id;
      if Holdable(before, g, Call(CallSucceeded, plan.response, plan.usage)) then
        && SettledAs(before, after, g, plan.status, plan.failure, plan.error, at)
        && checked == Left(after.rows[g]) && checked.row != read.row
        && after.attempts == (if plan.response.Some? then before.attempts[g := plan.response.value] else before.attempts)
        && after.usage == (if plan.usage.None? || g in before.usage then before.usage
                           else before.usage[g := UsageRecord(read.row.key.owner, read.row.key.purpose, plan.usage.value, at)])
      else if read.at - read.row.startRequestedAt.value >= 2 * HOUR + 10 * MINUTE then
        && FailedBare(before, after, g, ProviderFailed, NotRecorded, at)
        && checked == Left(after.rows[g]) && checked.row != read.row
      else after == before && checked.Broken?
  {
    hide S.Commit, ReadBefore, SettledAs;
    var after := Settles(before, read, Some(plan), at, retention);
    CommitSettlesAs(before, read, plan, at, retention);
    if Holdable(before, read.row.id, Call(CallSucceeded, plan.response, plan.usage)) {
      SettledShows(before, after, read, plan.status, plan.failure, plan.error, at);
    } else if PastGivingUp(read) {
      CommitSettlesAs(before, read, Check.UNRECORDED, at, retention);
      SettledShows(before, after, read, Failed, Some(ProviderFailed), Some(NotRecorded), at);
    }
  }

  lemma CommitsRightly(before: S.Store, read: Snapshot, plan: Option<Plan>, reply: Reply, since: Option<Time>,
                       marked: bool, at: Time, retention: Time)
    requires ReadBefore(before.rows, read) && Current(before.rows, read) && Observable(read)
    requires Says(plan, read, reply, since, marked)
    requires plan.Some? ==> Fits(plan.value, read.row.callId, before.rows[read.row.id].cancelRequestedAt.Some?, true)
    ensures Rightly(before, Settles(before, read, plan, at, retention), read, reply, since, marked,
                    EndsAs(before, read, plan, at, retention), at)
  {
    hide ReadBefore, SettledAs;
    if plan.Some? {
      hide Settles, EndsAs;
      CommitEndsAs(before, read, plan.value, at, retention);
    }
  }

  /** Whatever is heard of a recorded call, its check does right by it. */
  lemma ChecksRightly(before: S.Store, read: Snapshot, provider: Provider, at: Time, retention: Time)
    requires ReadBefore(before.rows, read) && Current(before.rows, read) && Observable(read) && provider.served
    ensures var plan := PlanFor(read, provider, CancelledNow(before.rows, read.row.id));
      var since := StopWanted(read, provider);
      Rightly(before, Settles(before, read, plan, at, retention), read,
              if since.Some? then provider.onCancel else provider.onGet, since,
              CancelledNow(before.rows, read.row.id), EndsAs(before, read, plan, at, retention), at)
  {
    hide PlanFor, StopWanted, Settles, EndsAs, Says, Rightly;
    PlanSays(before.rows, read, provider);
    var since := StopWanted(read, provider);
    CommitsRightly(before, read, PlanFor(read, provider, CancelledNow(before.rows, read.row.id)),
                   if since.Some? then provider.onCancel else provider.onGet, since,
                   CancelledNow(before.rows, read.row.id), at, retention);
  }

  lemma ChecksRightlyIdle(before: S.Store, read: Snapshot, provider: Provider, at: Time, retention: Time)
    requires ReadBefore(before.rows, read) && Current(before.rows, read) && read.row.callId.None?
    ensures var plan := PlanFor(read, provider, CancelledNow(before.rows, read.row.id));
      RightlyIdle(before, Settles(before, read, plan, at, retention), read, EndsAs(before, read, plan, at, retention), at)
  {
    RouteFits(read);
    var plan := PlanFor(read, provider, CancelledNow(before.rows, read.row.id));
    if plan.Some? { CommitSettlesAs(before, read, plan.value, at, retention); }
    hide S.Commit;
  }

  /** The check does right by the answer it heard: the stop's, when one is wanted. */
  ghost predicate RightlyHeard(before: S.Store, after: S.Store, read: Snapshot, provider: Provider, checked: Checked, at: Time)
    requires read.row.startRequestedAt.Some?
  {
    forall since | StopFrom(read, provider.onGet, since) ::
      Rightly(before, after, read, if since.Some? then provider.onCancel else provider.onGet, since,
              CancelledNow(before.rows, read.row.id), checked, at)
  }

  /** The check asks the provider to cancel the call. */
  ghost predicate StopsCall(read: Snapshot, provider: Provider) {
    Observable(read) && read.row.settledAt.None? && provider.served && !StopFrom(read, provider.onGet, None)
  }

  lemma ChecksRightlyUnserved(before: S.Store, read: Snapshot, provider: Provider, at: Time, retention: Time)
    requires ReadBefore(before.rows, read) && Current(before.rows, read) && Observable(read) && !provider.served
    ensures var plan := PlanFor(read, provider, CancelledNow(before.rows, read.row.id));
      var after := Settles(before, read, plan, at, retention);
      && FailedBare(before, after, read.row.id, OutcomeUnknown, ProviderUnavailable, at)
      && EndsAs(before, read, plan, at, retention) == Left(after.rows[read.row.id])
  {
    CommitSettlesAs(before, read, FailPlan(ProviderUnavailable, OutcomeUnknown, None), at, retention);
    hide S.Commit;
  }

  lemma RightOfCurrent(before: S.Store, read: Snapshot, provider: Provider, at: Time, retention: Time)
    requires ReadBefore(before.rows, read) && Current(before.rows, read)
    ensures var plan := PlanFor(read, provider, CancelledNow(before.rows, read.row.id));
      var after, checked := Settles(before, read, plan, at, retention), EndsAs(before, read, plan, at, retention);
      && (Observable(read) && provider.served ==> RightlyHeard(before, after, read, provider, checked, at))
      && (Observable(read) && !provider.served ==>
            FailedBare(before, after, read.row.id, OutcomeUnknown, ProviderUnavailable, at) && checked == Left(after.rows[read.row.id]))
      && (read.row.callId.None? ==> RightlyIdle(before, after, read, checked, at))
  {
    hide PlanFor, Settles, EndsAs, StopFrom, Rightly, RightlyIdle, FailedBare, StopWanted;
    if read.row.callId.None? {
      ChecksRightlyIdle(before, read, provider, at, retention);
    }
    if Observable(read) {
      if provider.served {
        ChecksRightly(before, read, provider, at, retention);
        StopWantedFrom(read, provider);
        forall since | StopFrom(read, provider.onGet, since) ensures since == StopWanted(read, provider) {
          StopFromOnce(read, provider.onGet, since, StopWanted(read, provider));
        }
      } else {
        ChecksRightlyUnserved(before, read, provider, at, retention);
      }
    }
  }

  predicate CancelledNow(rows: map<GenId, Generation>, g: GenId) {
    g in rows && rows[g].cancelRequestedAt.Some?
  }

  lemma CancelledRowWellFormed(r: Generation, at: Time, retention: Time)
    requires S.WellFormed(r) && r.Unsettled()
    ensures var q := S.CancelledRow(r, at, retention);
      && S.WellFormed(q) && S.Precedes(r, q) && S.Precedes(q, q) && q.cancelRequestedAt.Some?
      && (q.callId.Some? ==> q.Unsettled() && Observable(Snapshot(q, at)) && StopSince(Snapshot(q, at)).Some?)
  {
  }

  class GenerationCheck {
    const db: Database
    var stopped: set<CallId>

    constructor (db: Database)
      ensures this.db == db && stopped == {}
    {
      this.db, stopped := db, {};
    }

    /** One question about a call or one stop of it, and the instant its stop was first wanted. */
    method Ask(read: Snapshot, provider: Provider) returns (reply: Reply, since: Option<Time>)
      requires Observable(read)
      modifies this`stopped
      ensures since ==
        if StopSince(read).Some? then StopSince(read)
        else if StuckQueued(read, provider.onGet) then Some(QueuedSince(read)) else None
      ensures reply == if since.Some? then provider.onCancel else provider.onGet
      ensures stopped == old(stopped) + if since.Some? then {read.row.callId.value} else {}
    {
      var start := read.row.startRequestedAt.value;
      since := read.row.cancelRequestedAt;
      var age := read.at - start;
      var ceiling := start + RUN_CEILING;
      if age >= RUN_CEILING && (since.None? || ceiling < since.value) {
        since := Some(ceiling);
      }
      if since.None? {
        reply := provider.onGet;
        if !reply.Told? || !read.row.key.streamed || reply.call.state != CallQueued || age < STREAM_QUEUED_CEILING {
          return reply, None;
        }
        since := Some(start + STREAM_QUEUED_CEILING);
      }
      stopped := stopped + {read.row.callId.value};
      reply := provider.onCancel;
    }

    method Commit(read: Snapshot, plan: Plan, at: Time) returns (outcome: S.Outcome)
      requires ReadBefore(db.rows, read)
      requires read.row.id in db.rows ==>
        Fits(plan, read.row.callId, db.rows[read.row.id].cancelRequestedAt.Some?, read.row.startRequestedAt.Some?)
      modifies db
      ensures (db.Contents(), outcome) ==
        S.Commit(old(db.Contents()), RequestOf(read.row, plan), plan.response, plan.usage, read.row.key, at, db.retention)
      ensures outcome.Changed? <==> !Current(old(db.rows), read)
      ensures outcome.Landed? ==>
        && SettledOnce(old(db.Contents()), db.Contents(), read, plan, at, db.retention)
        && outcome.row == db.rows[read.row.id] && !outcome.row.Unsettled()
      ensures !outcome.Landed? ==> db.Contents() == old(db.Contents())
      ensures plan.response.None? && plan.usage.None? ==> !outcome.Refused?
      ensures RowsWellFormed(db.rows)
    {
      if Current(db.rows, read) {
        SettledRowWellFormed(read.row, db.rows[read.row.id], plan, at, db.retention);
      }
      outcome := db.Commit(RequestOf(read.row, plan), plan.response, plan.usage, read.row.key, at);
    }

    /** The settle of a call that ended or is given up, with the bare failure to fall back on. */
    method Conclude(read: Snapshot, plan: Plan, at: Time) returns (checked: Checked)
      requires ReadBefore(db.rows, read)
      requires read.row.id in db.rows ==>
        Fits(plan, read.row.callId, db.rows[read.row.id].cancelRequestedAt.Some?, read.row.startRequestedAt.Some?)
      requires PastGivingUp(read) ==> read.row.callId.Some?
      modifies db
      ensures RowsWellFormed(db.rows)
      ensures db.Contents() == Settles(old(db.Contents()), read, Some(plan), at, db.retention)
      ensures ChecksOnly(old(db.Contents()), db.Contents(), read, at, db.retention)
      ensures checked.Overtaken? <==> !Current(old(db.rows), read)
      ensures Current(old(db.rows), read) ==> checked == EndsAs(old(db.Contents()), read, Some(plan), at, db.retention)
      ensures checked.Left? ==>
        read.row.id in db.rows && checked.row == db.rows[read.row.id] && !checked.row.Unsettled()
      ensures Current(old(db.rows), read) && PastGivingUp(read) ==> checked.Left?
    {
      var outcome := Commit(read, plan, at);
      if outcome.Refused? && PastGivingUp(read) {
        outcome := Commit(read, Check.UNRECORDED, at);
      }
      checked := Ended(outcome);
    }

    /** A check of a recorded call: one question to the provider, and the settle its answer calls for, if any. */
    method Observe(read: Snapshot, provider: Provider, at: Time) returns (checked: Checked)
      requires ReadBefore(db.rows, read) && Observable(read) && RouteOf(read).Observe?
      modifies this`stopped, db
      ensures RowsWellFormed(db.rows)
      ensures db.Contents() ==
        Settles(old(db.Contents()), read, PlanFor(read, provider, CancelledNow(old(db.rows), read.row.id)), at, db.retention)
      ensures ChecksOnly(old(db.Contents()), db.Contents(), read, at, db.retention)
      ensures checked.Left? ==> checked.row == read.row || (read.row.id in db.rows && checked.row == db.rows[read.row.id])
      ensures checked.Overtaken? ==> !Current(old(db.rows), read)
      ensures Current(old(db.rows), read) ==>
        checked == EndsAs(old(db.Contents()), read,
                          PlanFor(read, provider, CancelledNow(old(db.rows), read.row.id)), at, db.retention)
      ensures Current(old(db.rows), read) && PastGivingUp(read) ==> checked.Left? && !checked.row.Unsettled()
      ensures checked.Left? && checked.row != read.row ==> !checked.row.Unsettled()
      ensures stopped == old(stopped)
        + if provider.served && StopWanted(read, provider).Some? then {read.row.callId.value} else {}
      ensures StopSince(read).Some? ==>
        read.row.callId.value in stopped || (read.row.id in db.rows ==> !db.rows[read.row.id].Unsettled())
      ensures old(stopped) <= stopped
    {
      if !provider.served {
        var outcome := Commit(read, FailPlan(ProviderUnavailable, OutcomeUnknown, None), at);
        return Ended(outcome);
      }
      var reply, since := Ask(read, provider);
      JudgeFits(read, reply, since);
      if PastGivingUp(read) {
        PastGivingUpNeverKeeps(read, reply);
      }
      var plan;
      match Judge(read, reply, since) {
        case Keep =>
          return Left(read.row);
        case Relabel(call) =>
          if read.row.id !in db.rows {
            return Broken;
          }
          plan := SettlePlan(db.rows[read.row.id].cancelRequestedAt.Some?, call);
        case Give(given) =>
          plan := given;
      }
      hide PlanFor, Judge, SettlePlan, StopSince, StuckQueued;
      checked := Conclude(read, plan, at);
    }

    /** A check that holds no start. */
    method Exec(read: Snapshot, provider: Provider, at: Time) returns (checked: Checked)
      requires ReadBefore(db.rows, read)
      modifies this`stopped, db
      ensures RowsWellFormed(db.rows)
      ensures db.Contents() ==
        Settles(old(db.Contents()), read, PlanFor(read, provider, CancelledNow(old(db.rows), read.row.id)), at, db.retention)
      ensures ChecksOnly(old(db.Contents()), db.Contents(), read, at, db.retention)
      // another check's commit answers with the row as that check left it
      ensures !checked.Overtaken?
      ensures checked.Left? ==> checked.row == read.row || (read.row.id in db.rows && checked.row == db.rows[read.row.id])
      // the row of a recorded call ends as its call does, and stays as it is exactly while the call is pending
      ensures Current(old(db.rows), read) && Observable(read) && provider.served ==>
        RightlyHeard(old(db.Contents()), db.Contents(), read, provider, checked, at)
      ensures Current(old(db.rows), read) && Observable(read) && !provider.served ==>
        && FailedBare(old(db.Contents()), db.Contents(), read.row.id, OutcomeUnknown, ProviderUnavailable, at)
        && checked == Left(db.rows[read.row.id])
      // without a call to ask about, the age and the start of the generation decide
      ensures Current(old(db.rows), read) && read.row.callId.None? ==>
        RightlyIdle(old(db.Contents()), db.Contents(), read, checked, at)
      ensures read.row.settledAt.Some? ==> checked == Left(read.row)
      // every generation that could hold its owner's slot for good is settled here at the latest
      ensures Current(old(db.rows), read) && LastCheck(read) ==> checked.Left? && !checked.row.Unsettled()
      // a known call whose stop is wanted is asked to stop, unless its provider is gone and it settles at once
      ensures read.row.Unsettled() && Observable(read) && StopSince(read).Some? ==>
        read.row.callId.value in stopped || (read.row.id in db.rows ==> !db.rows[read.row.id].Unsettled())
      ensures old(stopped) <= stopped
      // and no other is
      ensures stopped == old(stopped) + if StopsCall(read, provider) then {read.row.callId.value} else {}
    {
      RouteFits(read);
      ghost var before := db.Contents();
      if Observable(read) {
        StopWantedFrom(read, provider);
      }
      if Current(db.rows, read) {
        RightOfCurrent(before, read, provider, at, db.retention);
      }
      var r := read.row;
      if r.settledAt.Some? {
        return Left(r);
      }
      if r.callId.Some? {
        checked := Observe(read, provider, at);
      } else if r.startRequestedAt.Some? {
        if read.at - r.startRequestedAt.value < START_OUTCOME_UNKNOWN_AFTER {
          return Left(r);
        }
        var outcome := Commit(read, FailPlan(OutcomeIsUnknown, OutcomeUnknown, None), at);
        checked := Ended(outcome);
      } else if r.cancelRequestedAt.Some? {
        var outcome := Commit(read, SettlePlan(true, Call(CallCancelled, None, None)), at);
        checked := Ended(outcome);
      } else {
        var outcome := Commit(read, FailPlan(StartFailed, Failure.NotStarted, None), at);
        checked := Ended(outcome);
      }
      if checked.Overtaken? {
        checked := if r.id in db.rows && db.rows[r.id].key.owner == r.key.owner then Left(db.rows[r.id]) else Broken;
      }
    }

    /** The stop of a call that is on no row, and the count of what it used. A failure of either is let pass. */
    method StopOrphan(intent: Generation, call: CallId, provider: Provider, at: Time)
      modifies this`stopped, db`usage
      ensures stopped == old(stopped) + {call}
      ensures db.usage ==
        if provider.onCancel.Told? && provider.onCancel.call.usage.Some? && S.ValidUsage(provider.onCancel.call.usage.value)
        then S.WithUsage(old(db.usage), intent.id, S.UsageOf(intent.key, provider.onCancel.call.usage.value, at))
        else old(db.usage)
    {
      stopped := stopped + {call};
      var reply := provider.onCancel;
      if reply.Told? && reply.call.usage.Some? {
        var refused := db.InsertUsage(intent.id, intent.key, reply.call.usage.value, at);
      }
    }

    /** An owner's cancel: the mark, or the settle of a generation that never started, then the stop of its call. */
    method Cancel(id: GenId, owner: seq<byte>, at: Time, provider: Provider, later: Time) returns (checked: Checked)
      requires RowsWellFormed(db.rows)
      modifies this`stopped, db
      ensures RowsWellFormed(db.rows) && !checked.Overtaken?
      // nobody else's generation is touched, nor told apart from one that does not exist
      ensures !(id in old(db.rows) && old(db.rows)[id].key.owner == owner) ==>
        checked.Broken? && db.Contents() == old(db.Contents()) && stopped == old(stopped)
      ensures forall g :: g in old(db.rows) ==> g in db.rows && S.Precedes(old(db.rows)[g], db.rows[g])
      ensures forall g :: g in old(db.rows) && g != id ==> db.rows[g] == old(db.rows)[g]
      // the mark of the first cancel is on it, and one that never started is cancelled there and then
      ensures id in old(db.rows) && old(db.rows)[id].key.owner == owner && old(db.rows)[id].settledAt.None? ==>
        && db.rows[id].cancelRequestedAt ==
             (if old(db.rows)[id].cancelRequestedAt.Some? then old(db.rows)[id].cancelRequestedAt else Some(at))
        && (old(db.rows)[id].startRequestedAt.None? ==> db.rows[id].status == Cancelled && checked == Left(db.rows[id]))
      // the owner's generation comes back settled, or stopped, or marked for the start that is in flight
      ensures checked.Left? ==>
        && id in db.rows
        && (db.rows[id].Unsettled() ==> db.rows[id].cancelRequestedAt.Some? && db.rows[id].startRequestedAt.Some?)
        && (db.rows[id].Unsettled() && db.rows[id].callId.Some? ==> db.rows[id].callId.value in stopped)
    {
      hide RightlyHeard, StopFrom, PlanFor, Settles, RightlyIdle, FailedBare, ChecksOnly, LastCheck;
      var row := db.RequestCancel(id, owner, at);
      if row.None? {
        return if id in db.rows && db.rows[id].key.owner == owner then Left(db.rows[id]) else Broken;
      }
      checked := Left(row.value);
      if row.value.callId.Some? && row.value.settledAt.None? {
        var read := Snapshot(row.value, at);
        ghost var marked := db.Contents();
        CancelledRowWellFormed(old(db.rows)[id], at, db.retention);
        hide S.Precedes, S.WellFormed;
        checked := Exec(read, provider, later);
        ChecksOnlyIsSafe(marked, db.Contents(), read, later, db.retention);
        S.PrecedesTransitive(old(db.rows)[id], marked.rows[id], db.rows[id]);
      }
    }
  }
}
