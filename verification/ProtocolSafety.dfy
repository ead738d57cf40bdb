/** Every step keeps the invariant, so it holds in every state a run reaches. */
module ProtocolSafety {
  import opened Types
  import opened Check
  import opened Connector
  import opened Protocol
  import opened ProtocolInvariant
  import S = Store

  // ---------- steps that change no table ----------

  lemma QuietKept(s: State, t: State, p: nat)
    requires OthersStand(s, t, p)
    requires Continues(s, t, p)
    requires t.requests == s.requests
    ensures forall g :: Quiet(s, g) ==> Quiet(t, g)
  {
  }

  /** A process keeps its role and its generation, and never goes back before its send. */
  predicate SameProcess(q: Process, r: Process) {
    q.role == r.role && q.gen == r.gen && (BeforeSend(r.phase) ==> BeforeSend(q.phase))
  }

  predicate Continues(s: State, t: State, p: nat) {
    && (p in s.procs ==> p in t.procs && SameProcess(s.procs[p], t.procs[p]))
    && (p in t.procs ==> p in s.procs)
  }

  predicate LocksKept(s: State, t: State, p: nat) {
    forall o | o in s.locks && s.locks[o] != p :: o in t.locks && t.locks[o] == s.locks[o]
  }

  lemma FrameTables(s: State, t: State, p: nat)
    requires TablesOk(s) && t.store == s.store && t.purged == s.purged
    requires RowsEvolve(s, t, p) && ProviderEvolves(s, t, p)
    ensures TablesOk(t)
  {
    forall g | Known(t, g) ensures RowOk(t, g) { assert Known(s, g); FrameRow(s, t, p, g); }
    forall g | g in t.store.usage ensures UsageOk(t, g) { FrameUsage(s, t, p, g); }
  }

  lemma LocalEvolves(s: State, t: State, p: nat)
    requires OthersStand(s, t, p)
    requires In(s, p) && In(t, p) && SameProcess(s.procs[p], t.procs[p])
    requires t == s.(procs := t.procs, stops := t.stops, locks := t.locks) && s.stops <= t.stops
    requires LocksKept(s, t, p)
    ensures RowsEvolve(s, t, p) && ProviderEvolves(s, t, p)
  {
    QuietKept(s, t, p);
  }

  lemma FrameProvider(s: State, t: State, p: nat)
    requires ProviderOk(s) && OthersStand(s, t, p) && Continues(s, t, p)
    requires t.requests == s.requests && t.ops == s.ops && t.sends == s.sends && t.late <= s.late && s.minted <= t.minted
    requires forall g :: Known(s, g) ==> Known(t, g)
    ensures ProviderOk(t)
  {
  }

  lemma FrameUnique(s: State, t: State, p: nat)
    requires SubmittersUnique(s) && OthersStand(s, t, p) && Continues(s, t, p)
    ensures SubmittersUnique(t)
  {
  }

  lemma LocalStep(s: State, t: State, p: nat)
    requires Inv(s) && OthersStand(s, t, p)
    requires In(s, p) && In(t, p) && SameProcess(s.procs[p], t.procs[p])
    requires t == s.(procs := t.procs, stops := t.stops, locks := t.locks) && s.stops <= t.stops
    requires LocksKept(s, t, p)
    requires PhaseOk(t, p)
    ensures Inv(t)
  {
    LocalEvolves(s, t, p);
    FrameTables(s, t, p);
    FrameProvider(s, t, p);
    FrameUnique(s, t, p);
    FrameProcs(s, t, p);
  }

  /** What a process is entitled to, in a state the invariant holds in. */
  lemma Standing(s: State, p: nat)
    requires Inv(s) && In(s, p)
    ensures PhaseOk(s, p)
  {
  }

  lemma RowStanding(s: State, g: GenId)
    requires Inv(s) && Known(s, g)
    ensures RowOk(s, g)
  {
  }

  /** The call a process holds is the provider's call for its generation. */
  lemma CallStanding(s: State, p: nat, row: Generation, c: CallId)
    requires Inv(s) && HoldsCall(s, p, row, c)
    ensures CallFor(s, row.id, c)
  {
  }

  // ---------- where a local step may lead ----------

  lemma MoveEnd(s: State, p: nat, phase: Phase)
    requires Inv(s) && In(s, p) && (phase.Returned? || phase.Gone? || phase.Rereading?)
    ensures Inv(At(s, p, phase)) && Inv(Unlock(At(s, p, phase), p))
  {
    hide Inv;
    Standing(s, p);
    LocalStep(s, At(s, p, phase), p);
    LocalStep(s, Unlock(At(s, p, phase), p), p);
  }

  lemma MoveCommitting(s: State, p: nat, read: Snapshot, plan: Plan, answered: bool)
    requires Inv(s) && In(s, p) && ReadOk(s, s.procs[p].gen, read)
    requires PlanOk(At(s, p, Committing(read, plan, answered)), s.procs[p].gen, read, plan, answered)
    ensures Inv(At(s, p, Committing(read, plan, answered)))
  {
    hide Inv;
    Standing(s, p);
    LocalStep(s, At(s, p, Committing(read, plan, answered)), p);
  }

  ghost predicate ReaderOk(s: State, g: GenId, phase: Phase, stops: set<CallId>) {
    && (phase.Observing? || phase.Awaiting? || phase.Relabelling?)
    && ReadOk(s, g, phase.read) && Observable(phase.read)
    && (phase.Awaiting? && phase.since.Some? ==> phase.read.row.callId.value in stops)
    && (phase.Relabelling? ==>
          && Ended(s, phase.read.row.callId.value) && s.ops[phase.read.row.callId.value].call == phase.answer
          && phase.answer.state == CallCancelled)
  }

  lemma MoveReader(s: State, p: nat, phase: Phase, stops: set<CallId>)
    requires Inv(s) && In(s, p) && s.stops <= stops && ReaderOk(s, s.procs[p].gen, phase, stops)
    ensures Inv(At(s, p, phase).(stops := stops))
  {
    hide Inv;
    Standing(s, p);
    LocalStep(s, At(s, p, phase).(stops := stops), p);
  }

  ghost predicate HolderOk(s: State, p: nat, phase: Phase)
    requires In(s, p)
  {
    && (phase.Writing? || phase.Pausing? || phase.ReadingBack? || phase.StoppingOrphan? || phase.OrphanStopped?
        || phase.MeteringOrphan?)
    && HoldsCall(s, p, phase.row, phase.call)
    && (phase.Writing? || phase.Pausing? ==> IntentOk(s, s.procs[p], phase.row, phase.intentAt))
    && (phase.MeteringOrphan? ==>
          Ended(s, phase.call) && s.ops[phase.call].call.usage == Some(phase.usage))
  }

  lemma MoveHolder(s: State, p: nat, phase: Phase, stops: set<CallId>)
    requires Inv(s) && In(s, p) && s.stops <= stops && HolderOk(s, p, phase)
    ensures Inv(At(s, p, phase).(stops := stops))
  {
    hide Inv;
    Standing(s, p);
    LocalStep(s, At(s, p, phase).(stops := stops), p);
  }

  lemma MoveStarting(s: State, p: nat, row: Generation, intentAt: Time, until: Time)
    requires Inv(s) && In(s, p) && PhaseOf(s, p) == Ready(row, intentAt)
    ensures Inv(At(s, p, Starting(row, intentAt, false, until)))
  {
    hide Inv;
    Standing(s, p);
    LocalStep(s, At(s, p, Starting(row, intentAt, false, until)), p);
  }

  /** A start that will never be sent, or was refused, leaves its generation without a call for good. */
  lemma RefusedIsQuiet(s: State, t: State, p: nat)
    requires Inv(s) && OthersStand(s, t, p) && t.requests == s.requests
    requires In(s, p) && In(t, p) && SameProcess(s.procs[p], t.procs[p])
    requires s.procs[p].role == Submitter && !BeforeSend(t.procs[p].phase)
    requires p in s.requests ==> s.requests[p].fate.Refused?
    ensures Quiet(t, s.procs[p].gen)
  {
  }

  // ---------- the local steps ----------

  lemma BeginStartKeeps(s: State, p: nat, served: bool)
    requires Inv(s) && In(s, p) && PhaseOf(s, p).Ready?
    ensures Inv(At(s, p, AfterReady(s, PhaseOf(s, p), served)))
  {
    hide Inv;
    Standing(s, p);
    var next := AfterReady(s, PhaseOf(s, p), served);
    if next.Starting? {
      MoveStarting(s, p, next.row, next.intentAt, next.until);
    } else {
      RefusedIsQuiet(s, At(s, p, next), p);
      MoveCommitting(s, p, next.read, next.plan, next.answered);
    }
  }

  lemma StartFailsKeeps(s: State, p: nat, error: StartError, body: Option<Response>)
    requires Inv(s) && In(s, p) && PhaseOf(s, p).Starting? && Truthful(s, p, PhaseOf(s, p).sent, error)
    ensures Inv(At(s, p, AfterStartError(s, PhaseOf(s, p), error, body)))
  {
    hide Inv;
    Standing(s, p);
    var next := AfterStartError(s, PhaseOf(s, p), error, body);
    if !ClassifyStart(error, PhaseOf(s, p).sent).Ambiguous? { RefusedIsQuiet(s, At(s, p, next), p); }
    MoveCommitting(s, p, next.read, next.plan, next.answered);
  }

  lemma StartNamesKeeps(s: State, p: nat)
    requires Inv(s) && In(s, p) && PhaseOf(s, p).Starting? && p in s.requests && s.requests[p].fate.Accepted?
    ensures Inv(At(s, p, FirstWrite(s, PhaseOf(s, p), s.requests[p].fate.call)))
  {
    hide Inv;
    Standing(s, p);
    MoveHolder(s, p, FirstWrite(s, PhaseOf(s, p), s.requests[p].fate.call), s.stops);
  }

  lemma WakeKeeps(s: State, p: nat)
    requires Inv(s) && In(s, p) && PhaseOf(s, p).Pausing?
    ensures Inv(At(s, p, Awake(s, PhaseOf(s, p))))
  {
    hide Inv;
    Standing(s, p);
    MoveHolder(s, p, Awake(s, PhaseOf(s, p)), s.stops);
  }

  lemma StopOrphanKeeps(s: State, p: nat)
    requires Inv(s) && In(s, p) && PhaseOf(s, p).StoppingOrphan?
    ensures Inv(ApplyStopOrphan(s, p))
  {
    hide Inv;
    Standing(s, p);
    var a := PhaseOf(s, p);
    MoveHolder(s, p, OrphanStopped(a.row, a.call), s.stops + {a.call});
  }

  lemma OrphanAnswersKeeps(s: State, p: nat, reply: Reply)
    requires Inv(s) && In(s, p) && PhaseOf(s, p).OrphanStopped? && Plausible(s, PhaseOf(s, p).call, reply)
    ensures Inv(At(s, p, AfterOrphan(PhaseOf(s, p), reply)))
  {
    hide Inv;
    Standing(s, p);
    var next := AfterOrphan(PhaseOf(s, p), reply);
    if next.MeteringOrphan? {
      HonestAnswer(s, PhaseOf(s, p).call);
      MoveHolder(s, p, next, s.stops);
    } else {
      MoveEnd(s, p, next);
    }
  }

  lemma HonestAnswer(s: State, c: CallId)
    requires Inv(s) && c in s.ops
    ensures Honest(s.ops[c].call)
  {
  }

  lemma FinishStartKeeps(s: State, p: nat)
    requires Inv(s) && In(s, p) && PhaseOf(s, p).Recorded?
    ensures Inv(At(s, p, AfterRecord(PhaseOf(s, p).read)))
  {
    hide Inv;
    Standing(s, p);
    var next := AfterRecord(PhaseOf(s, p).read);
    if next.Observing? { MoveReader(s, p, next, s.stops); } else { MoveEnd(s, p, next); }
  }

  lemma RouteConcludes(s: State, p: nat)
    requires Inv(s) && In(s, p) && PhaseOf(s, p).Checking? && RouteOf(PhaseOf(s, p).read).Conclude?
    ensures Inv(At(s, p, AfterRoute(PhaseOf(s, p).read)))
  {
    hide Inv;
    Standing(s, p);
    var next := AfterRoute(PhaseOf(s, p).read);
    RouteFits(next.read);
    RowStanding(s, s.procs[p].gen);
    QuietKept(s, At(s, p, next), p);
    MoveCommitting(s, p, next.read, next.plan, next.answered);
  }

  lemma RouteCheckKeeps(s: State, p: nat)
    requires Inv(s) && In(s, p) && PhaseOf(s, p).Checking?
    ensures Inv(At(s, p, AfterRoute(PhaseOf(s, p).read)))
  {
    hide Inv;
    Standing(s, p);
    var next := AfterRoute(PhaseOf(s, p).read);
    match next
    case Committing(_, _, _) => RouteConcludes(s, p);
    case Observing(_) => MoveReader(s, p, next, s.stops);
    case _ => MoveEnd(s, p, next);
  }

  lemma AskKeeps(s: State, p: nat, served: bool)
    requires Inv(s) && In(s, p) && PhaseOf(s, p).Observing? && Observable(PhaseOf(s, p).read)
    ensures Inv(ApplyAsk(s, p, served))
  {
    hide Inv;
    Standing(s, p);
    var read := PhaseOf(s, p).read;
    if !served {
      MoveCommitting(s, p, read, FailPlan(ProviderUnavailable, OutcomeUnknown, None), false);
    } else if StopSince(read).None? {
      MoveReader(s, p, Awaiting(read, None), s.stops);
    } else {
      MoveReader(s, p, Awaiting(read, StopSince(read)), s.stops + {read.row.callId.value});
    }
  }

  lemma HearKeeps(s: State, p: nat, reply: Reply)
    requires Inv(s) && In(s, p) && PhaseOf(s, p).Awaiting? && Observable(PhaseOf(s, p).read)
    requires Plausible(s, PhaseOf(s, p).read.row.callId.value, reply)
    ensures Inv(ApplyHear(s, p, reply))
  {
    hide Inv;
    Standing(s, p);
    var Awaiting(read, since) := PhaseOf(s, p);
    if since.None? && StuckQueued(read, reply) {
      MoveReader(s, p, Awaiting(read, Some(QueuedSince(read))), s.stops + {read.row.callId.value});
    } else {
      match Judge(read, reply, since)
      case Keep => MoveEnd(s, p, Returned);
      case Relabel(call) => MoveReader(s, p, Relabelling(read, call), s.stops);
      case Give(plan) =>
        JudgeFits(read, reply, since);
        MoveCommitting(s, p, read, plan, reply.Told? && reply.call.state.Terminal());
    }
  }

  lemma ReadLabelKeeps(s: State, p: nat)
    requires Inv(s) && In(s, p) && PhaseOf(s, p).Relabelling?
    ensures Inv(At(s, p, AfterLabel(s, s.procs[p])))
  {
    hide Inv;
    Standing(s, p);
    var next := AfterLabel(s, s.procs[p]);
    if next.Gone? { MoveEnd(s, p, next); } else { MoveCommitting(s, p, next.read, next.plan, true); }
  }

  // ---------- steps that change one row ----------

  ghost predicate OneRow(s: State, t: State, g: GenId) {
    && t == s.(store := t.store, procs := t.procs, late := t.late) && t.late <= s.late
    && g in s.store.rows && g in t.store.rows
    && t.store.rows == s.store.rows[g := t.store.rows[g]]
    && S.Precedes(s.store.rows[g], t.store.rows[g])
    && (forall h :: h in s.store.attempts ==> h in t.store.attempts && t.store.attempts[h] == s.store.attempts[h])
    && (forall h :: h in t.store.attempts ==> h in s.store.attempts || h == g)
    && (forall h :: h in s.store.usage ==> h in t.store.usage && t.store.usage[h] == s.store.usage[h])
    && (forall h :: h in t.store.usage ==> h in s.store.usage || h == g)
  }

  lemma OneRowEvolves(s: State, t: State, p: nat, g: GenId)
    requires TablesOk(s) && OneRow(s, t, g) && OthersStand(s, t, p) && Continues(s, t, p)
    ensures RowsEvolve(s, t, p) && ProviderEvolves(s, t, p)
  {
    QuietKept(s, t, p);
    assert RowOk(s, g);
    assert g !in s.purged;
  }

  lemma OneRowTables(s: State, t: State, p: nat, g: GenId)
    requires TablesOk(s) && OneRow(s, t, g) && RowsEvolve(s, t, p) && ProviderEvolves(s, t, p)
    requires RowOk(t, g) && (g in t.store.usage ==> UsageOk(t, g))
    requires g in t.store.attempts ==> !t.store.rows[g].Unsettled()
    ensures TablesOk(t)
  {
    forall h | Known(t, h) ensures RowOk(t, h) {
      if h != g {
        assert RowOk(s, h);
        FrameRow(s, t, p, h);
      }
    }
    forall h | h in t.store.usage ensures UsageOk(t, h) { if h != g { FrameUsage(s, t, p, h); } }
  }

  lemma OneRowKeys(s: State, t: State, g: GenId)
    requires KeysUnique(s) && OneRow(s, t, g)
    ensures KeysUnique(t)
  {
  }

  lemma RowStep(s: State, t: State, p: nat, g: GenId)
    requires Inv(s) && OneRow(s, t, g) && OthersStand(s, t, p) && Continues(s, t, p)
    requires RowOk(t, g) && (g in t.store.usage ==> UsageOk(t, g))
    requires g in t.store.attempts ==> !t.store.rows[g].Unsettled()
    requires In(t, p) ==> PhaseOk(t, p)
    ensures Inv(t)
  {
    OneRowEvolves(s, t, p, g);
    OneRowTables(s, t, p, g);
    OneRowKeys(s, t, g);
    FrameProvider(s, t, p);
    FrameUnique(s, t, p);
    FrameProcs(s, t, p);
  }
}
