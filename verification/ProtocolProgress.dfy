/** What each step of a process achieves, by the columns of its row, and a run in which all of them come together. */
module ProtocolProgress {
  import opened Types
  import opened Check
  import opened Connector
  import opened Counting
  import opened Protocol
  import opened ProtocolInvariant
  import opened ProtocolTiming
  import opened ProtocolFrozen
  import Outcomes
  import RecordLoop
  import S = Store

  // ---------- the submit ----------

  /** A request that a pending, running or succeeded row holds is replayed. Any other is recorded, from this instant on. */
  lemma Inserts(s: State, p: nat, txAt: Time)
    requires In(s, p) && PhaseOf(s, p).Submitting?
    ensures var a, t := PhaseOf(s, p), ApplyInsert(s, p, txAt);
      var held := exists g :: g in s.store.rows && s.store.rows[g].key == a.key
                              && s.store.rows[g].status in {Pending, Running, Succeeded};
      && In(t, p)
      && if held then PhaseOf(t, p).Returned?
         else
           && PhaseOf(t, p).Admitting? && PhaseOf(t, p).txAt == txAt && PhaseOf(t, p).limit == a.limit
           && PhaseOf(t, p).row.id == s.procs[p].gen && PhaseOf(t, p).row.key == a.key
           && PhaseOf(t, p).row.status == Pending && PhaseOf(t, p).row.startRequestedAt == Some(s.now)
           && a.key.owner in t.locks && t.locks[a.key.owner] == p
  {
    assert forall r: Generation :: S.HoldsKey(r) <==> r.status in {Pending, Running, Succeeded};
  }

  /** It is admitted exactly when no usage limit is reached and the rows that count, its own among them, are within its
    * concurrency. */
  lemma Admits(s: State, p: nat, usageReached: bool)
    requires In(s, p) && PhaseOf(s, p).Admitting?
    ensures var a, t := PhaseOf(s, p), ApplyAdmit(s, p, usageReached);
      var rows := s.store.rows[a.row.id := a.row];
      && In(t, p)
      && if !usageReached
            && (a.limit.Some? ==> |Live(rows, a.row.key.owner, a.row.key.purpose, a.txAt)| <= a.limit.value)
         then PhaseOf(t, p) == a.(counted := true)
         else PhaseOf(t, p).Returned? && t.store == s.store && forall o :: o in t.locks ==> t.locks[o] != p
  {
  }

  /** It leaves, while its provider is served and its intent is under twenty seconds old. */
  lemma Begins(s: State, p: nat, served: bool)
    requires In(s, p) && PhaseOf(s, p).Ready?
    ensures var a, next := PhaseOf(s, p), AfterReady(s, PhaseOf(s, p), served);
      if served && s.now - a.intentAt < 20 * SECOND then
        next == Starting(a.row, a.intentAt, false, s.now + if a.row.key.streamed then 30 * SECOND else 20 * SECOND)
      else
        next.Committing? && next.plan.status == Failed && next.plan.failure == Some(Failure.NotStarted)
        && next.plan.error == Some(if served then StartFailed else ProviderUnavailable)
  {
  }

  /** The request of a start that left is known to the provider, as its generation's. */
  lemma Sends(s: State, p: nat)
    requires In(s, p) && PhaseOf(s, p).Starting?
    ensures var a, t := PhaseOf(s, p), ApplySend(s, p);
      && In(t, p) && PhaseOf(t, p) == Starting(a.row, a.intentAt, true, a.until)
      && t.requests == s.requests[p := Request(a.row.id, InFlight)] && t.sends[a.row.id] == s.sends[a.row.id] + 1
  {
  }

  /** A start that names no call settles its generation: as rejected with the provider's words, as never started when
    * nothing was accepted for any other reason, and as unknown otherwise. */
  lemma Fails(s: State, a: Phase, error: StartError, body: Option<Response>)
    requires a.Starting? && (error.Status? ==> error.code >= 400)
    ensures var next := AfterStartError(s, a, error, body);
      var refused := error.Status? && 400 <= error.code < 500 && error.code != 408;
      && next.Committing? && next.read == Snapshot(a.row, s.now) && !next.answered && next.plan.status == Failed
      && next.plan.failure == Some(
           if refused && !Passing(error.code, error.quota) then Rejected
           else if refused || (error.Transport? && !a.sent) then Failure.NotStarted
           else OutcomeUnknown)
      && next.plan.response == (if next.plan.failure == Some(Rejected) then body else None)
  {
    RejectionExactly(error, a.sent, body);
  }

  // ---------- the record of a call ----------

  /** A write of the call id lands on a pending row that started, and on no other. */
  lemma Writes(s: State, p: nat)
    requires In(s, p) && PhaseOf(s, p).Writing?
    ensures var a, t := PhaseOf(s, p), ApplyWrite(s, p);
      var g := a.row.id;
      && In(t, p)
      && if g in s.store.rows && s.store.rows[g].status == Pending && s.store.rows[g].startRequestedAt.Some? then
           var row := s.store.rows[g].(callId := Some(a.call), status := Running);
           && t.store == s.store.(rows := s.store.rows[g := row])
           && PhaseOf(t, p) == Recorded(Snapshot(row, s.now)) && t.procs[p].confirmed == Some(row)
         else
           && t.store == s.store
           && PhaseOf(t, p) == if a.first then StoppingOrphan(a.row, a.call) else ReadingBack(a.row, a.call)
  {
  }

  /** A call that was named is written at once, with four seconds for each write. */
  lemma Names(s: State, a: Phase, c: CallId)
    ensures a.Starting? ==>
      FirstWrite(s, a, c) == Writing(a.row, a.intentAt, c, true, 250 * MILLISECOND, s.now + 4 * SECOND)
    ensures a.Pausing? ==> Awake(s, a) == Writing(a.row, a.intentAt, a.call, false, a.pause, s.now + 4 * SECOND)
  {
  }

  /** A write without an answer is written again while two minutes from the intent leave time for the pause. What it did
    * is still to come: the database may finish it within nine seconds of the instant its client would have given it up,
    * with the effect it would have had. */
  lemma LosesWrite(s: State, p: nat)
    requires In(s, p) && PhaseOf(s, p).Writing?
    ensures var a, t := PhaseOf(s, p), ApplyLoseWrite(s, p);
      && In(t, p) && t.store == s.store
      && PhaseOf(t, p) ==
           (if s.now + a.pause < a.intentAt + 2 * MINUTE
            then Pausing(a.row, a.intentAt, a.call, RecordLoop.Doubled(a.pause), s.now + a.pause)
            else ReadingBack(a.row, a.call))
      && var late := LateWrite(a.row.id, a.call, a.until + 9 * SECOND);
      && t.late == s.late + {late} && MoveEnabled(t, LateLands(late))
      && ApplyLate(t, late).store == ApplyWrite(s, p).store
  {
  }

  /** A call that its row does not carry is stopped. One whose row cannot be read is not. */
  lemma ReadsBack(s: State, p: nat)
    requires In(s, p) && PhaseOf(s, p).ReadingBack?
    ensures var a, t := PhaseOf(s, p), ApplyReadBack(s, p);
      && In(t, p) && t.store == s.store
      && if a.row.id !in s.store.rows then PhaseOf(t, p).Gone?
         else if s.store.rows[a.row.id].callId == Some(a.call)
         then PhaseOf(t, p) == Recorded(Snapshot(s.store.rows[a.row.id], s.now))
         else PhaseOf(t, p) == StoppingOrphan(a.row, a.call)
  {
  }

  /** The stop of an orphan reaches the provider, and what it reports is counted, once. */
  lemma StopsOrphan(s: State, p: nat, reply: Reply)
    requires In(s, p) && PhaseOf(s, p).StoppingOrphan?
    ensures var a, t := PhaseOf(s, p), ApplyStopOrphan(s, p);
      && In(t, p) && PhaseOf(t, p) == OrphanStopped(a.row, a.call) && t.stops == s.stops + {a.call}
      && AfterOrphan(PhaseOf(t, p), reply) ==
           if reply.Told? && reply.call.usage.Some? then MeteringOrphan(a.row, a.call, reply.call.usage.value) else Gone
  {
  }

  lemma Meters(s: State, p: nat)
    requires In(s, p) && PhaseOf(s, p).MeteringOrphan?
    ensures var a, t := PhaseOf(s, p), ApplyMeter(s, p);
      var u := a.usage;
      && t.store.rows == s.store.rows && t.store.attempts == s.store.attempts
      && t.store.usage ==
           if a.row.id !in s.store.usage
              && 0 <= u.cachedInput <= u.input && 0 <= u.reasoning <= u.output && 0 <= u.cacheWrite
           then s.store.usage[a.row.id := UsageRecord(a.row.key.owner, a.row.key.purpose, u, s.now)]
           else s.store.usage
  {
  }

  /** A start whose record shows its owner's cancel goes on to stop its call. */
  lemma Finishes(read: Snapshot)
    ensures AfterRecord(read) == if read.row.cancelRequestedAt.Some? then Observing(read) else Returned
  {
  }

  // ---------- a check and a cancel ----------

  /** What a check does with the row it read, by its columns. */
  lemma Routes(read: Snapshot)
    ensures var r, a := read.row, AfterRoute(read);
      if r.settledAt.Some? then a.Returned?
      else if r.callId.Some? then a == Observing(read)
      else if r.startRequestedAt.Some? && read.at - r.startRequestedAt.value < 3 * MINUTE then a.Returned?
      else
        && a.Committing? && a.read == read && !a.answered && a.plan.response.None? && a.plan.usage.None?
        && (a.plan.status, a.plan.failure, a.plan.error) ==
             if r.startRequestedAt.Some? then (Failed, Some(OutcomeUnknown), Some(OutcomeIsUnknown))
             else if r.cancelRequestedAt.Some? then (Cancelled, None, Some(OwnerCancelled))
             else (Failed, Some(Failure.NotStarted), Some(StartFailed))
  {
  }

  /** A stop that is wanted is asked for, since the instant it was first wanted. */
  lemma Asks(s: State, p: nat, served: bool, since: Option<Time>)
    requires In(s, p) && PhaseOf(s, p).Observing? && Observable(PhaseOf(s, p).read)
    requires Outcomes.StopFrom(PhaseOf(s, p).read, Transient, since)
    ensures var read, t := PhaseOf(s, p).read, ApplyAsk(s, p, served);
      && In(t, p)
      && if !served then
           && PhaseOf(t, p).Committing? && t.stops == s.stops && PhaseOf(t, p).plan.status == Failed
           && PhaseOf(t, p).plan.failure == Some(OutcomeUnknown)
           && PhaseOf(t, p).plan.error == Some(ProviderUnavailable)
         else
           && PhaseOf(t, p) == Awaiting(read, since)
           && t.stops == s.stops + if since.Some? then {read.row.callId.value} else {}
  {
  }

  /** A cancel marks its owner's unsettled row, the first mark staying, and settles one that never started. */
  lemma Marks(s: State, p: nat)
    requires In(s, p) && PhaseOf(s, p).Cancelling?
    ensures var g, owner, t := s.procs[p].gen, PhaseOf(s, p).owner, ApplyMark(s, p, true);
      && In(t, p)
      && if g !in s.store.rows || s.store.rows[g].key.owner != owner then t.store == s.store && PhaseOf(t, p).Gone?
         else if s.store.rows[g].status !in {Pending, Running} then t.store == s.store && PhaseOf(t, p).Returned?
         else
           var r := s.store.rows[g];
           && g in t.store.rows && t.store == s.store.(rows := s.store.rows[g := t.store.rows[g]])
           && var q := t.store.rows[g];
           && q.cancelRequestedAt == (if r.cancelRequestedAt.Some? then r.cancelRequestedAt else Some(s.now))
           && q.status == (if r.startRequestedAt.Some? then r.status else Cancelled)
           && q.settledAt == (if r.startRequestedAt.Some? then r.settledAt else Some(s.now))
           && (r.callId.Some? && r.startRequestedAt.Some? ==> PhaseOf(t, p) == Checking(Snapshot(q, s.now)))
           && (r.callId.None? ==> PhaseOf(t, p).Returned?)
  {
  }

  /** What a transaction did stands, though its answer be lost: only its process is none the wiser. */
  lemma AnswersLost(s: State, p: nat)
    requires In(s, p)
    ensures PhaseOf(s, p).Committing? ==>
      var t := ApplyCommit(s, p, false);
      t == At(s, p, Gone).(store := t.store) && t.store == ApplyCommit(s, p, true).store
    ensures PhaseOf(s, p).Cancelling? ==>
      var t := ApplyMark(s, p, false);
      t == At(s, p, Gone).(store := t.store) && t.store == ApplyMark(s, p, true).store
  {
  }

  /** The purge takes rows whose retention has passed, with their answers. Usage stays. */
  lemma Purges(s: State, ids: set<GenId>)
    requires MoveEnabled(s, Move.Purge(ids))
    ensures var t := ApplyPurge(s, ids);
      && t.store.rows == (map g | g in s.store.rows && g !in ids :: s.store.rows[g])
      && t.store.attempts == (map g | g in s.store.attempts && g !in ids :: s.store.attempts[g])
      && t.store.usage == s.store.usage
      && forall g :: g in ids ==> s.store.rows[g].expiresAt.Some? && s.store.rows[g].expiresAt.value < s.now
  {
  }

  // ---------- one whole run ----------

  /** Whatever answer and usage the tables hold, some run ends with a generation that succeeded with them: one submit,
    * admitted and started; its call accepted, recorded and ended; one check. */
  lemma Succeeds(response: Response, usage: Usage) returns (steps: seq<Step>)
    requires Outcomes.Holdable(Empty(0).store, 1, Call(CallSucceeded, Some(response), Some(usage)))
    ensures Init(Empty(0)) && ValidRun(Empty(0), steps)
    ensures var s := Final(Empty(0), steps);
      && 1 in s.store.rows && s.store.rows[1].status == Succeeded && s.store.rows[1].callId == Some(7)
      && s.store.attempts == map[1 := response] && s.store.usage == map[1 := UsageRecord([], [], usage, s.now)]
  {
    StartsEmpty(0);
    hide Final, ValidRun, Init, TimelyRun;
    var s0 := Empty(0);
    steps := Ended(Call(CallSucceeded, Some(response), Some(usage)));
    var s := Final(s0, steps);
    var read := PhaseOf(s, 1).read;
    var reply := Told(Call(CallSucceeded, Some(response), Some(usage)));
    var step := Checks(1, Hear(reply));
    RunThen(s0, steps, step);
    steps, s := steps + [step], Apply(s, step);
    assert PhaseOf(s, 1) == Committing(read, SettlePlan(false, reply.call), true);
    step := Checks(1, CommitCheck(true));
    RunThen(s0, steps, step);
    steps, s := steps + [step], Apply(s, step);
  }

  const RUNNING: Generation := Row(false).(callId := Some(7), status := Running)

  lemma Recording() returns (steps: seq<Step>)
    ensures ValidRun(Empty(0), steps)
    ensures var s := Final(Empty(0), steps);
      && s.now == 62 * SECOND && s.store == S.Store(map[1 := RUNNING], map[], map[])
      && s.ops == map[7 := Operation(1, 0, CALL)]
      && s.procs == map[0 := Process(Submitter, 1, Recorded(Snapshot(RUNNING, s.now)), Some(RUNNING), None)]
  {
    hide Final, ValidRun, TimelyRun;
    steps := Named(0);
    var s := Final(Empty(0), steps);
    var step := Records(0, Write);
    RunThen(Empty(0), steps, step);
    steps, s := steps + [step], Apply(s, step);
  }

  /** The provider ends the call, and a check reads its row. */
  lemma Read(call: Call) returns (steps: seq<Step>)
    requires call.state == CallSucceeded
    ensures ValidRun(Empty(0), steps)
    ensures var s := Final(Empty(0), steps);
      && s.now == 62 * SECOND && s.store == S.Store(map[1 := RUNNING], map[], map[])
      && s.ops == map[7 := Operation(1, 0, call)]
      && In(s, 1) && s.procs[1] == Process(Checker, 1, Checking(Snapshot(RUNNING, s.now)), None, None)
  {
    hide Final, ValidRun, TimelyRun;
    steps := Recording();
    var s := Final(Empty(0), steps);
    var step := Around(ProviderMoves(7, call));
    RunThen(Empty(0), steps, step);
    steps, s := steps + [step], Apply(s, step);
    step := Around(BeginCheck(1, 1));
    RunThen(Empty(0), steps, step);
    steps, s := steps + [step], Apply(s, step);
  }

  /** It asks, and is about to hear of the end. */
  lemma Ended(call: Call) returns (steps: seq<Step>)
    requires call.state == CallSucceeded
    ensures ValidRun(Empty(0), steps)
    ensures var s := Final(Empty(0), steps);
      && s.store == S.Store(map[1 := RUNNING], map[], map[]) && s.ops == map[7 := Operation(1, 0, call)]
      && In(s, 1) && s.procs[1].phase == Awaiting(Snapshot(RUNNING, s.now), None) && s.procs[1].gen == 1
  {
    hide Final, ValidRun, TimelyRun;
    steps := Read(call);
    var s := Final(Empty(0), steps);
    var step := Checks(1, RouteCheck);
    RunThen(Empty(0), steps, step);
    steps, s := steps + [step], Apply(s, step);
    assert PhaseOf(s, 1) == Observing(Snapshot(RUNNING, s.now));
    step := Checks(1, Ask(true));
    RunThen(Empty(0), steps, step);
    steps, s := steps + [step], Apply(s, step);
  }
}
