/** The database as a value, and what each statement does to it. */
module Store {
  import opened Types

  datatype Store = Store(
    rows: map<GenId, Generation>,
    attempts: map<GenId, Response>,
    usage: map<GenId, UsageRecord>)

  datatype Outcome = Landed(row: Generation) | Changed | Refused

  datatype SettleRequest = SettleRequest(
    id: GenId,
    startRequestedAt: Option<Time>,
    callId: Option<CallId>,
    status: Status,
    error: Option<Reason>,
    failure: Option<Failure>,
    outcomeUnknown: bool)

  /** A failed or cancelled row is outside the unique index, so its request may run again. */
  predicate HoldsKey(r: Generation) {
    r.status != Failed && r.status != Cancelled
  }

  ghost predicate KeyTaken(rows: map<GenId, Generation>, key: Identity) {
    exists g :: g in rows && rows[g].key == key && HoldsKey(rows[g])
  }

  function NewRow(id: GenId, key: Identity, at: Time): Generation {
    Generation(id, key, Pending, Some(at), None, None, None, None, None, None, None)
  }

  // ---------- the conditional updates of one row ----------

  predicate Recordable(r: Generation) {
    r.status == Pending && r.startRequestedAt.Some?
  }

  function RecordedRow(r: Generation, call: CallId): Generation {
    r.(callId := Some(call), status := Running)
  }

  /** A row that never started is settled by its cancel; one that did is marked, its first mark kept. */
  function CancelledRow(r: Generation, at: Time, retention: Time): Generation {
    var marked := r.(cancelRequestedAt := if r.cancelRequestedAt.Some? then r.cancelRequestedAt else Some(at));
    if r.startRequestedAt.Some? then marked
    else marked.(status := Cancelled, error := Some(OwnerCancelled), settledAt := Some(at), expiresAt := Some(at + retention))
  }

  /** The fence: the settle applies only to the unsettled run its caller observed. */
  predicate Fenced(r: Generation, request: SettleRequest) {
    r.Unsettled() && r.callId == request.callId && r.startRequestedAt == request.startRequestedAt
  }

  /** What the table's constraints ask of a settle's values. */
  predicate Admissible(request: SettleRequest) {
    && (request.status == Succeeded || request.status == Failed || request.status == Cancelled)
    && (request.failure.Some? ==> request.status == Failed)
    && (request.outcomeUnknown ==> request.status == Failed)
  }

  function SettledRow(r: Generation, request: SettleRequest, at: Time, retention: Time): Generation {
    r.(status := request.status, error := request.error, failure := request.failure,
       settledAt := Some(at), expiresAt := Some(at + retention),
       outcomeUnknownAt := if request.outcomeUnknown then Some(at) else None)
  }

  // ---------- the statements ----------

  function Record(s: Store, id: GenId, call: CallId): (Store, Outcome) {
    if id in s.rows && Recordable(s.rows[id]) then
      var row := RecordedRow(s.rows[id], call);
      (s.(rows := s.rows[id := row]), Landed(row))
    else (s, Changed)
  }

  /** None: settled already, or not this owner's. */
  function RequestCancel(s: Store, id: GenId, owner: seq<byte>, at: Time, retention: Time): (Store, Option<Generation>) {
    if id in s.rows && s.rows[id].key.owner == owner && s.rows[id].Unsettled() then
      var row := CancelledRow(s.rows[id], at, retention);
      (s.(rows := s.rows[id := row]), Some(row))
    else (s, None)
  }

  predicate ValidUsage(u: Usage) {
    && 0 <= u.cachedInput <= u.input
    && 0 <= u.reasoning <= u.output
    && 0 <= u.cacheWrite
  }

  predicate Storable(s: Store, id: GenId, response: Option<Response>, usage: Option<Usage>) {
    && (response.Some? ==> response.value.storable && id !in s.attempts)
    && (usage.Some? ==> ValidUsage(usage.value))
  }

  function UsageOf(key: Identity, usage: Usage, at: Time): UsageRecord {
    UsageRecord(key.owner, key.purpose, usage, at)
  }

  /** One transaction: the settle, the answer and the Usage Record land together or not at all. */
  function Commit(s: Store, request: SettleRequest, response: Option<Response>, usage: Option<Usage>,
                  key: Identity, at: Time, retention: Time): (Store, Outcome)
  {
    if request.id !in s.rows || !Fenced(s.rows[request.id], request) then (s, Changed)
    else if !Admissible(request) || !Storable(s, request.id, response, usage) then (s, Refused)
    else
      var row := SettledRow(s.rows[request.id], request, at, retention);
      (Store(s.rows[request.id := row],
             if response.Some? then s.attempts[request.id := response.value] else s.attempts,
             if usage.Some? then WithUsage(s.usage, request.id, UsageOf(key, usage.value, at)) else s.usage),
       Landed(row))
  }

  /** The first Usage Record of a generation stays. */
  function WithUsage(usage: map<GenId, UsageRecord>, id: GenId, record: UsageRecord): map<GenId, UsageRecord> {
    if id in usage then usage else usage[id := record]
  }

  predicate Expired(r: Generation, now: Time) {
    r.expiresAt.Some? && r.expiresAt.value < now
  }

  /** The purge drops rows past their retention and their answers; Usage Records stay for good. */
  function Purge(s: Store, ids: set<GenId>): Store {
    Store(s.rows - ids, s.attempts - ids, s.usage)
  }

  // ---------- rows over time ----------

  /** What every row satisfies, whatever led to it. */
  predicate WellFormed(r: Generation) {
    && (r.status == Pending ==> r.callId.None?)
    && (r.status == Running ==> r.callId.Some?)
    && (r.callId.Some? ==> r.startRequestedAt.Some?)
    && (r.Unsettled() <==> r.settledAt.None?)
    && (r.Unsettled() <==> r.expiresAt.None?)
    && (r.status == Succeeded ==> r.callId.Some?)
    && (r.status == Failed <==> r.failure.Some?)
    && (r.error.None? <==> r.Unsettled() || r.status == Succeeded)
    && (r.failure == Some(ProviderFailed) ==> r.callId.Some?)
    && (r.failure == Some(Rejected) || r.failure == Some(NotStarted) ==> r.callId.None?)
    && (r.status == Cancelled ==> r.cancelRequestedAt.Some? && (r.callId.None? ==> r.startRequestedAt.None?))
    && (r.outcomeUnknownAt.Some? <==> r.failure == Some(OutcomeUnknown))
    && (r.outcomeUnknownAt.Some? ==> r.outcomeUnknownAt == r.settledAt)
  }

  /** `r` is an earlier version of `q`: a call id and a cancel mark land once, and a settled row is final. */
  predicate Precedes(r: Generation, q: Generation) {
    && r.id == q.id && r.key == q.key && r.startRequestedAt == q.startRequestedAt
    && (r.callId.Some? ==> q.callId == r.callId)
    && (r.cancelRequestedAt.Some? ==> q.cancelRequestedAt == r.cancelRequestedAt)
    && (!r.Unsettled() ==> q == r)
  }

  lemma PrecedesTransitive(a: Generation, b: Generation, c: Generation)
    requires Precedes(a, b) && Precedes(b, c)
    ensures Precedes(a, c)
  {
  }
}
