/** What holds in every reachable state, whatever the interleaving. */
module ProtocolInvariant {
  import opened Types
  import opened Check
  import opened Protocol
  import S = Store

  ghost predicate Known(s: State, g: GenId) {
    g in s.store.rows || g in s.purged
  }

  /** The row, or what it was when the purge took it. */
  ghost function RowOf(s: State, g: GenId): Generation
    requires Known(s, g)
  {
    if g in s.store.rows then s.store.rows[g] else s.purged[g]
  }

  predicate BeforeSend(phase: Phase) {
    phase.Submitting? || phase.Admitting? || phase.Ready? || (phase.Starting? && !phase.sent)
  }

  predicate InStart(a: Phase) {
    || a.Starting? || a.Writing? || a.Pausing? || a.ReadingBack?
    || a.StoppingOrphan? || a.OrphanStopped? || a.MeteringOrphan?
  }

  ghost predicate MaySend(s: State, g: GenId) {
    exists p :: p in s.procs && s.procs[p].role == Submitter && s.procs[p].gen == g && BeforeSend(s.procs[p].phase)
  }

  /** The provider accepted no call of this generation and never will. */
  ghost predicate Quiet(s: State, g: GenId) {
    && !MaySend(s, g)
    && forall p :: p in s.requests && s.requests[p].gen == g ==> s.requests[p].fate.Refused?
  }

  ghost predicate CallFor(s: State, g: GenId, c: CallId) {
    c in s.ops && s.ops[c].gen == g
  }

  ghost predicate Ended(s: State, c: CallId) {
    c in s.ops && s.ops[c].call.state.Terminal()
  }

  // ---------- rows ----------

  /** The statuses and reasons a generation takes only from its call's own end. */
  predicate FromAnswer(status: Status, error: Option<Reason>, call: Option<CallId>) {
    || status == Succeeded
    || (status == Cancelled && call.Some?)
    || error == Some(Reason.CallFailed)
    || error == Some(Overdue)
  }

  /** The call's end, its answer and its usage are on record with the outcome. */
  ghost predicate AnswerRecorded(s: State, g: GenId, r: Generation) {
    FromAnswer(r.status, r.error, r.callId) ==>
      && r.callId.Some? && Ended(s, r.callId.value)
      && var call := s.ops[r.callId.value].call;
      && (r.status == Succeeded <==> call.state == CallSucceeded)
      && (r.status == Cancelled ==> call.state == CallCancelled)
      && (call.usage.Some? ==> g in s.store.usage && s.store.usage[g].usage == call.usage.value)
      && (g in s.store.rows && call.response.Some? ==>
            g in s.store.attempts && s.store.attempts[g] == call.response.value)
  }

  ghost predicate RowOk(s: State, g: GenId)
    requires Known(s, g)
  {
    var r := RowOf(s, g);
    && r.id == g && S.WellFormed(r) && Dated(r, s.retention, s.now)
    && g in s.minted
    && (r.callId.Some? ==> CallFor(s, g, r.callId.value))
    && (r.startRequestedAt.None? ==> Quiet(s, g))
    && (!r.Unsettled() && r.callId.None? && r.failure != Some(OutcomeUnknown) ==> Quiet(s, g))
    && (g in s.purged ==> g !in s.store.rows && !r.Unsettled())
    && AnswerRecorded(s, g, r)
  }

  ghost predicate UsageOk(s: State, g: GenId)
    requires g in s.store.usage
  {
    && Known(s, g)
    && s.store.usage[g].owner == RowOf(s, g).key.owner && s.store.usage[g].purpose == RowOf(s, g).key.purpose
    && exists c :: CallFor(s, g, c) && Ended(s, c) && s.ops[c].call.usage == Some(s.store.usage[g].usage)
  }

  ghost predicate TablesOk(s: State) {
    && s.retention >= UNKNOWN_OUTCOME_HOLD
    && (forall g :: Known(s, g) ==> RowOk(s, g))
    && (forall g :: g in s.store.attempts ==> g in s.store.rows && !s.store.rows[g].Unsettled())
    && (forall g :: g in s.store.usage ==> UsageOk(s, g))
  }

  /** A request key is held by one row at most. */
  ghost predicate KeysUnique(s: State) {
    forall g, h | g in s.store.rows && h in s.store.rows && s.store.rows[g].key == s.store.rows[h].key ::
      S.HoldsKey(s.store.rows[g]) && S.HoldsKey(s.store.rows[h]) ==> g == h
  }

  // ---------- the provider ----------

  ghost predicate ProviderOk(s: State) {
    && (forall p :: p in s.requests ==>
          && p in s.procs && s.procs[p].role == Submitter && s.procs[p].gen == s.requests[p].gen
          && !BeforeSend(s.procs[p].phase)
          && Known(s, s.requests[p].gen)
          && (s.requests[p].fate.Accepted? ==>
                var c := s.requests[p].fate.call;
                c in s.ops && s.ops[c].sender == p && s.ops[c].gen == s.requests[p].gen))
    && (forall c :: c in s.ops ==>
          && s.ops[c].sender in s.requests
          && s.requests[s.ops[c].sender] == Request(s.ops[c].gen, Accepted(c))
          && Honest(s.ops[c].call))
    && (forall w :: w in s.late ==> CallFor(s, w.gen, w.call))
    && (forall g :: s.sends[g] <= 1 && (s.sends[g] > 0 ==> g in s.minted && Known(s, g)))
  }

  // ---------- processes ----------

  ghost predicate ReadOk(s: State, g: GenId, read: Snapshot) {
    && Known(s, g)
    && read.row.id == g && S.WellFormed(read.row) && S.Precedes(read.row, RowOf(s, g))
    && (read.row.startRequestedAt.Some? ==> read.row.startRequestedAt.value <= read.at)
    && read.at <= s.now
  }

  ghost predicate IntentOk(s: State, q: Process, row: Generation, intentAt: Time) {
    && q.role == Submitter
    && Known(s, q.gen) && row.id == q.gen && S.WellFormed(row) && S.Precedes(row, RowOf(s, q.gen))
    && row.status == Pending && row.startRequestedAt.Some?
    && intentAt <= row.startRequestedAt.value <= s.now
  }

  /** The process holds a call the provider accepted for its own request. */
  ghost predicate HoldsCall(s: State, p: nat, row: Generation, c: CallId) {
    && p in s.procs
    && s.procs[p].role == Submitter
    && Known(s, s.procs[p].gen) && row.id == s.procs[p].gen && row.key == RowOf(s, row.id).key
    && p in s.requests && s.requests[p] == Request(s.procs[p].gen, Accepted(c))
  }

  ghost predicate PlanOk(s: State, g: GenId, read: Snapshot, plan: Plan, answered: bool)
    requires Known(s, g)
  {
    var r := read.row;
    && Fits(plan, r.callId, RowOf(s, g).cancelRequestedAt.Some?, r.startRequestedAt.Some?)
    && (plan.failure == Some(Rejected) || plan.failure == Some(NotStarted) ==> Quiet(s, g))
    && (FromAnswer(plan.status, plan.error, r.callId) ==> answered)
    && (plan.usage.Some? ==> answered)
    && (plan.response.Some? ==> answered || r.callId.None?)
    && (answered ==>
          && r.callId.Some? && Ended(s, r.callId.value)
          && var call := s.ops[r.callId.value].call;
          && plan.response == call.response && plan.usage == call.usage
          && (plan.status == Succeeded <==> call.state == CallSucceeded)
          && (plan.status == Cancelled ==> call.state == CallCancelled))
  }

  ghost predicate PhaseOk(s: State, p: nat)
    requires p in s.procs
  {
    var q := s.procs[p];
    && (q.role == Submitter ==> q.gen in s.minted)
    && (BeforeSend(q.phase) ==> q.role == Submitter && p !in s.requests && s.sends[q.gen] == 0)
    && match q.phase
       case Submitting(key, limit, intentAt) => !Known(s, q.gen) && intentAt <= s.now
       case Admitting(row, limit, intentAt, txAt, counted) =>
         && !Known(s, q.gen)
         && row.startRequestedAt.Some? && intentAt <= row.startRequestedAt.value <= s.now
         && row == S.NewRow(q.gen, row.key, row.startRequestedAt.value)
         && txAt <= s.now
         && row.key.owner in s.locks && s.locks[row.key.owner] == p
         && !S.KeyTaken(s.store.rows, row.key)
       case Ready(row, intentAt) => IntentOk(s, q, row, intentAt)
       case Starting(row, intentAt, sent, until) =>
         IntentOk(s, q, row, intentAt) && (sent ==> p in s.requests && s.requests[p].gen == q.gen)
       case Writing(row, intentAt, call, first, pause, until) =>
         IntentOk(s, q, row, intentAt) && HoldsCall(s, p, row, call)
       case Pausing(row, intentAt, call, pause, wake) => IntentOk(s, q, row, intentAt) && HoldsCall(s, p, row, call)
       case ReadingBack(row, call) => HoldsCall(s, p, row, call)
       case StoppingOrphan(row, call) => HoldsCall(s, p, row, call)
       case OrphanStopped(row, call) => HoldsCall(s, p, row, call)
       case MeteringOrphan(row, call, usage) =>
         HoldsCall(s, p, row, call) && Ended(s, call) && s.ops[call].call.usage == Some(usage)
       case Recorded(read) => q.role == Submitter && ReadOk(s, q.gen, read) && Observable(read)
       case Checking(read) => ReadOk(s, q.gen, read)
       case Observing(read) => ReadOk(s, q.gen, read) && Observable(read)
       case Awaiting(read, since) =>
         && ReadOk(s, q.gen, read) && Observable(read)
         && (since.Some? ==> read.row.callId.value in s.stops)
       case Relabelling(read, answer) =>
         && ReadOk(s, q.gen, read) && Observable(read)
         && Ended(s, read.row.callId.value) && s.ops[read.row.callId.value].call == answer
         && answer.state == CallCancelled
       case Committing(read, plan, answered) => ReadOk(s, q.gen, read) && PlanOk(s, q.gen, read, plan, answered)
       case Cancelling(_) => q.role == Canceller
       case _ => true
  }

  /** A minted id belongs to one submit. */
  ghost predicate SubmittersUnique(s: State) {
    forall p, q | p in s.procs && q in s.procs && s.procs[p].gen == s.procs[q].gen ::
      s.procs[p].role == Submitter && s.procs[q].role == Submitter ==> p == q
  }

  ghost predicate ProcsOk(s: State) {
    SubmittersUnique(s) && forall p :: p in s.procs ==> PhaseOk(s, p)
  }

  ghost predicate Inv(s: State) {
    TablesOk(s) && KeysUnique(s) && ProviderOk(s) && ProcsOk(s)
  }

  // ---------- what a step of one process leaves to all others ----------

  ghost predicate RowsEvolve(s: State, t: State, p: nat) {
    && s.now <= t.now && t.retention == s.retention && s.minted <= t.minted
    && (forall g :: Known(s, g) ==> Known(t, g) && S.Precedes(RowOf(s, g), RowOf(t, g)))
    && (forall g :: Known(t, g) && !Known(s, g) ==> p in s.procs && s.procs[p].role == Submitter && s.procs[p].gen == g)
    && (forall g :: g in t.store.rows && S.HoldsKey(t.store.rows[g]) ==>
          || (g in s.store.rows && S.HoldsKey(s.store.rows[g]) && s.store.rows[g].key == t.store.rows[g].key)
          || (t.store.rows[g].key.owner in s.locks && s.locks[t.store.rows[g].key.owner] == p))
    && (forall o :: o in s.locks && s.locks[o] != p ==> o in t.locks && t.locks[o] == s.locks[o])
  }

  ghost predicate ProviderEvolves(s: State, t: State, p: nat) {
    && (forall q :: q in s.requests ==>
          q in t.requests && t.requests[q].gen == s.requests[q].gen
          && (s.requests[q].fate.InFlight? || t.requests[q].fate == s.requests[q].fate))
    && (forall q :: q in t.requests && q !in s.requests ==> q == p)
    && (forall c :: c in s.ops ==>
          c in t.ops && t.ops[c].gen == s.ops[c].gen
          && (s.ops[c].call.state.Terminal() ==> t.ops[c].call == s.ops[c].call))
    && s.stops <= t.stops
    && (forall g :: t.sends[g] == s.sends[g] || (p in s.procs && s.procs[p].role == Submitter && s.procs[p].gen == g))
    && (forall g :: g in s.minted && Quiet(s, g) ==> Quiet(t, g))
  }

  ghost predicate OthersStand(s: State, t: State, p: nat) {
    && (forall q :: q in s.procs && q != p ==> q in t.procs && t.procs[q] == s.procs[q])
    && (forall q :: q in t.procs && q != p ==> q in s.procs)
  }

  lemma FrameRead(s: State, t: State, p: nat, g: GenId, read: Snapshot)
    requires RowsEvolve(s, t, p) && ReadOk(s, g, read)
    ensures ReadOk(t, g, read)
  {
    S.PrecedesTransitive(read.row, RowOf(s, g), RowOf(t, g));
  }

  lemma FrameIntent(s: State, t: State, p: nat, q: Process, row: Generation, intentAt: Time)
    requires RowsEvolve(s, t, p) && IntentOk(s, q, row, intentAt)
    ensures IntentOk(t, q, row, intentAt)
  {
    S.PrecedesTransitive(row, RowOf(s, q.gen), RowOf(t, q.gen));
  }

  lemma FrameHolds(s: State, t: State, p: nat, q: nat, row: Generation, c: CallId)
    requires RowsEvolve(s, t, p) && ProviderEvolves(s, t, p) && HoldsCall(s, q, row, c)
    requires q in t.procs && t.procs[q] == s.procs[q]
    ensures HoldsCall(t, q, row, c)
  {
  }

  lemma FramePlan(s: State, t: State, p: nat, g: GenId, read: Snapshot, plan: Plan, answered: bool)
    requires RowsEvolve(s, t, p) && ProviderEvolves(s, t, p) && Known(s, g) && Known(t, g) && g in s.minted
    requires PlanOk(s, g, read, plan, answered)
    ensures PlanOk(t, g, read, plan, answered)
  {
  }

  lemma FrameUnsent(s: State, t: State, p: nat, q: nat)
    requires RowsEvolve(s, t, p) && ProviderEvolves(s, t, p) && SubmittersUnique(s)
    requires q in s.procs && q != p && BeforeSend(s.procs[q].phase) && s.procs[q].role == Submitter
    requires q !in s.requests && s.sends[s.procs[q].gen] == 0
    ensures q !in t.requests && t.sends[s.procs[q].gen] == 0
    ensures !Known(s, s.procs[q].gen) ==> !Known(t, s.procs[q].gen)
  {
  }

  lemma FrameKey(s: State, t: State, p: nat, q: nat, key: Identity)
    requires RowsEvolve(s, t, p) && q != p
    requires key.owner in s.locks && s.locks[key.owner] == q && !S.KeyTaken(s.store.rows, key)
    ensures key.owner in t.locks && t.locks[key.owner] == q && !S.KeyTaken(t.store.rows, key)
  {
  }

  lemma FrameSubmitPhase(s: State, t: State, p: nat, q: nat)
    requires RowsEvolve(s, t, p) && ProviderEvolves(s, t, p) && SubmittersUnique(s)
    requires q in s.procs && q != p && PhaseOk(s, q) && q in t.procs && t.procs[q] == s.procs[q]
    requires BeforeSend(s.procs[q].phase)
    ensures PhaseOk(t, q)
  {
    FrameUnsent(s, t, p, q);
    var a := s.procs[q];
    match a.phase
    case Submitting(_, _, _) =>
    case Admitting(row, _, _, _, _) => FrameKey(s, t, p, q, row.key);
    case Ready(row, at) => FrameIntent(s, t, p, a, row, at);
    case Starting(row, at, _, _) => FrameIntent(s, t, p, a, row, at);
  }

  lemma FrameStartPhase(s: State, t: State, p: nat, q: nat)
    requires RowsEvolve(s, t, p) && ProviderEvolves(s, t, p)
    requires q in s.procs && q != p && PhaseOk(s, q) && q in t.procs && t.procs[q] == s.procs[q]
    requires !BeforeSend(s.procs[q].phase)
    ensures InStart(s.procs[q].phase) ==> PhaseOk(t, q)
  {
    var a := s.procs[q];
    match a.phase
    case Starting(row, at, _, _) => FrameIntent(s, t, p, a, row, at);
    case Writing(row, at, c, _, _, _) => FrameIntent(s, t, p, a, row, at); FrameHolds(s, t, p, q, row, c);
    case Pausing(row, at, c, _, _) => FrameIntent(s, t, p, a, row, at); FrameHolds(s, t, p, q, row, c);
    case ReadingBack(row, c) => FrameHolds(s, t, p, q, row, c);
    case StoppingOrphan(row, c) => FrameHolds(s, t, p, q, row, c);
    case OrphanStopped(row, c) => FrameHolds(s, t, p, q, row, c);
    case MeteringOrphan(row, c, _) => FrameHolds(s, t, p, q, row, c);
    case _ =>
  }

  lemma FrameCheckPhase(s: State, t: State, p: nat, q: nat)
    requires RowsEvolve(s, t, p) && ProviderEvolves(s, t, p)
    requires q in s.procs && q != p && PhaseOk(s, q) && q in t.procs && t.procs[q] == s.procs[q]
    requires Known(s, s.procs[q].gen) ==> s.procs[q].gen in s.minted
    requires !BeforeSend(s.procs[q].phase)
    ensures !InStart(s.procs[q].phase) ==> PhaseOk(t, q)
  {
    var a := s.procs[q];
    match a.phase
    case Recorded(read) => FrameRead(s, t, p, a.gen, read);
    case Checking(read) => FrameRead(s, t, p, a.gen, read);
    case Observing(read) => FrameRead(s, t, p, a.gen, read);
    case Awaiting(read, _) => FrameRead(s, t, p, a.gen, read);
    case Relabelling(read, _) => FrameRead(s, t, p, a.gen, read);
    case Committing(read, plan, answered) =>
      FrameRead(s, t, p, a.gen, read);
      FramePlan(s, t, p, a.gen, read, plan, answered);
    case _ =>
  }

  /** What one process does leaves every other where it stands, still entitled to all it believes. */
  lemma FrameProcs(s: State, t: State, p: nat)
    requires TablesOk(s) && ProcsOk(s) && RowsEvolve(s, t, p) && ProviderEvolves(s, t, p) && OthersStand(s, t, p)
    requires p in t.procs ==> PhaseOk(t, p)
    ensures forall q :: q in t.procs ==> PhaseOk(t, q)
  {
    forall q | q in t.procs && q != p
      ensures PhaseOk(t, q)
    {
      assert PhaseOk(s, q);
      assert Known(s, s.procs[q].gen) ==> RowOk(s, s.procs[q].gen);
      if BeforeSend(s.procs[q].phase) {
        FrameSubmitPhase(s, t, p, q);
      } else {
        FrameStartPhase(s, t, p, q);
        FrameCheckPhase(s, t, p, q);
      }
    }
  }

  /** A row no step changed stays in order. */
  lemma FrameRow(s: State, t: State, p: nat, g: GenId)
    requires TablesOk(s) && RowsEvolve(s, t, p) && ProviderEvolves(s, t, p)
    requires Known(s, g) && RowOf(t, g) == RowOf(s, g)
    requires g in t.store.rows ==> g in s.store.rows
    requires g in t.purged ==> g !in t.store.rows && !RowOf(t, g).Unsettled()
    requires g in s.store.usage ==> g in t.store.usage && t.store.usage[g] == s.store.usage[g]
    requires g in t.store.rows && g in s.store.attempts ==>
      g in t.store.attempts && t.store.attempts[g] == s.store.attempts[g]
    ensures RowOk(t, g)
  {
    assert RowOk(s, g);
  }

  lemma FrameUsage(s: State, t: State, p: nat, g: GenId)
    requires TablesOk(s) && RowsEvolve(s, t, p) && ProviderEvolves(s, t, p)
    requires g in s.store.usage && g in t.store.usage && t.store.usage[g] == s.store.usage[g]
    ensures UsageOk(t, g)
  {
    assert UsageOk(s, g);
    var c :| CallFor(s, g, c) && Ended(s, c) && s.ops[c].call.usage == Some(s.store.usage[g].usage);
    assert CallFor(t, g, c) && Ended(t, c);
  }

  /** A generation has one provider call at most. */
  lemma OneCall(s: State, c: CallId, d: CallId)
    requires Inv(s) && c in s.ops && d in s.ops && s.ops[c].gen == s.ops[d].gen
    ensures c == d
  {
    var p, q := s.ops[c].sender, s.ops[d].sender;
    assert s.procs[p].gen == s.procs[q].gen;
  }
}
