/** The steps that write a table, start a process or move the provider keep the invariant too. */
module ProtocolSteps {
  import opened Types
  import opened Check
  import opened Protocol
  import opened ProtocolInvariant
  import opened ProtocolSafety
  import S = Store

  // ---------- the record of a call id ----------

  lemma RecordRow(s: State, t: State, p: nat, g: GenId, c: CallId)
    requires Inv(s) && g in s.store.rows && S.Recordable(s.store.rows[g]) && CallFor(s, g, c)
    requires t == s.(store := s.store.(rows := s.store.rows[g := S.RecordedRow(s.store.rows[g], c)]),
                     procs := t.procs, late := t.late)
    requires t.late <= s.late && OthersStand(s, t, p) && Continues(s, t, p)
    requires In(t, p) ==> PhaseOk(t, p)
    ensures Inv(t)
  {
    hide Inv;
    RowStanding(s, g);
    AttemptStanding(s, g);
    assert RowOk(t, g);
    if g in s.store.usage {
      UsageOfOrphan(s, g);
      var d :| CallFor(s, g, d) && Ended(s, d) && s.ops[d].call.usage == Some(s.store.usage[g].usage);
      assert CallFor(t, g, d);
    }
    RowStep(s, t, p, g);
  }

  lemma WriteLands(s: State, p: nat)
    requires Inv(s) && In(s, p) && PhaseOf(s, p).Writing?
    requires S.Record(s.store, PhaseOf(s, p).row.id, PhaseOf(s, p).call).1.Landed?
    ensures Inv(ApplyWrite(s, p))
  {
    hide Inv;
    Standing(s, p);
    var a := PhaseOf(s, p);
    CallStanding(s, p, a.row, a.call);
    RowStanding(s, a.row.id);
    RecordRow(s, ApplyWrite(s, p), p, a.row.id, a.call);
  }

  lemma WriteKeeps(s: State, p: nat)
    requires Inv(s) && In(s, p) && PhaseOf(s, p).Writing?
    ensures Inv(ApplyWrite(s, p))
  {
    hide Inv;
    Standing(s, p);
    var a := PhaseOf(s, p);
    if S.Record(s.store, a.row.id, a.call).1.Landed? {
      WriteLands(s, p);
    } else {
      MoveHolder(s, p, if a.first then StoppingOrphan(a.row, a.call) else ReadingBack(a.row, a.call), s.stops);
    }
  }

  lemma ReadBackKeeps(s: State, p: nat)
    requires Inv(s) && In(s, p) && PhaseOf(s, p).ReadingBack?
    ensures Inv(ApplyReadBack(s, p))
  {
    hide Inv;
    Standing(s, p);
    var a := PhaseOf(s, p);
    if a.row.id !in s.store.rows {
      MoveEnd(s, p, Gone);
    } else if s.store.rows[a.row.id].callId == Some(a.call) {
      RowStanding(s, a.row.id);
      LocalStep(s, ApplyReadBack(s, p), p);
    } else {
      MoveHolder(s, p, StoppingOrphan(a.row, a.call), s.stops);
    }
  }

  // ---------- the settle ----------

  /** The fence: what the process settles is the very run it observed. */
  lemma CommitFenced(s: State, t: State, p: nat)
    requires Inv(s) && In(s, p) && PhaseOf(s, p).Committing? && Settles(s, t, p)
    ensures var g, read, plan := s.procs[p].gen, PhaseOf(s, p).read, PhaseOf(s, p).plan;
      && g in s.store.rows && S.Fenced(s.store.rows[g], RequestOf(read.row, plan))
      && t.store.rows == s.store.rows[g := S.SettledRow(s.store.rows[g], RequestOf(read.row, plan), s.now, s.retention)]
      && S.WellFormed(t.store.rows[g]) && S.Precedes(s.store.rows[g], t.store.rows[g])
      && Fits(plan, s.store.rows[g].callId, s.store.rows[g].cancelRequestedAt.Some?, s.store.rows[g].startRequestedAt.Some?)
  {
    hide Inv;
    Standing(s, p);
    var g, read, plan := s.procs[p].gen, PhaseOf(s, p).read, PhaseOf(s, p).plan;
    RowStanding(s, g);
    SettledRowWellFormed(read.row, s.store.rows[g], plan, s.now, s.retention);
  }

  /** A generation settles without a call, its outcome known, only when none was accepted. */
  lemma CommitQuiet(s: State, t: State, p: nat)
    requires Inv(s) && In(s, p) && PhaseOf(s, p).Committing? && Settles(s, t, p)
    ensures s.procs[p].gen in t.store.rows
    ensures var r := t.store.rows[s.procs[p].gen];
      r.callId.None? && r.failure != Some(OutcomeUnknown) ==> Quiet(t, s.procs[p].gen)
  {
    hide Inv;
    Standing(s, p);
    CommitFenced(s, t, p);
    var g, plan := s.procs[p].gen, PhaseOf(s, p).plan;
    RowStanding(s, g);
    QuietKept(s, t, p);
    var q := s.store.rows[g];
    if q.callId.None? && plan.failure != Some(OutcomeUnknown) {
      FitsWithoutCall(plan, q.cancelRequestedAt.Some?, q.startRequestedAt.Some?);
    }
  }

  /** What the transaction leaves in the tables, when the row still is the one the process observed. */
  lemma CommitRow(s: State, t: State, p: nat)
    requires Inv(s) && In(s, p) && PhaseOf(s, p).Committing? && Settles(s, t, p)
    ensures RowOk(t, s.procs[p].gen) && OneRow(s, t, s.procs[p].gen)
  {
    hide Inv;
    Standing(s, p);
    CommitFenced(s, t, p);
    CommitQuiet(s, t, p);
    var Committing(read, plan, answered) := PhaseOf(s, p);
    var g := s.procs[p].gen;
    RowStanding(s, g);
    AttemptStanding(s, g);
    QuietKept(s, t, p);
    if answered && plan.usage.Some? && g in s.store.usage { UsageStanding(s, g, read.row.callId.value); }
    assert AnswerRecorded(t, g, t.store.rows[g]);
  }

  ghost predicate Settles(s: State, t: State, p: nat)
    requires In(s, p) && PhaseOf(s, p).Committing?
  {
    var Committing(read, plan, _) := PhaseOf(s, p);
    var (store, outcome) := S.Commit(s.store, RequestOf(read.row, plan), plan.response, plan.usage,
                                     read.row.key, s.now, s.retention);
    && outcome.Landed? && In(t, p)
    && t == At(s, p, t.procs[p].phase).(store := store)
    && (t.procs[p].phase.Returned? || t.procs[p].phase.Gone?)
  }

  lemma AttemptStanding(s: State, g: GenId)
    requires Inv(s) && g in s.store.rows && s.store.rows[g].Unsettled()
    ensures g !in s.store.attempts
  {
  }

  /** A Usage Record written before, by the stop of an orphan, counts this same call. */
  lemma UsageStanding(s: State, g: GenId, c: CallId)
    requires Inv(s) && g in s.store.usage && CallFor(s, g, c)
    ensures UsageOk(s, g) && s.ops[c].call.usage == Some(s.store.usage[g].usage)
  {
    assert UsageOk(s, g);
    var d :| CallFor(s, g, d) && Ended(s, d) && s.ops[d].call.usage == Some(s.store.usage[g].usage);
    OneCall(s, c, d);
  }

  lemma CommitUsage(s: State, t: State, p: nat)
    requires Inv(s) && In(s, p) && PhaseOf(s, p).Committing?
    requires Settles(s, t, p) && s.procs[p].gen in t.store.usage
    ensures UsageOk(t, s.procs[p].gen)
  {
    hide Inv;
    Standing(s, p);
    var Committing(read, plan, answered) := PhaseOf(s, p);
    var g := s.procs[p].gen;
    RowStanding(s, g);
    if g in s.store.usage {
      if read.row.callId.Some? {
        UsageStanding(s, g, read.row.callId.value);
        assert CallFor(t, g, read.row.callId.value);
      } else {
        UsageOfOrphan(s, g);
        var c :| CallFor(s, g, c) && Ended(s, c) && s.ops[c].call.usage == Some(s.store.usage[g].usage);
        assert CallFor(t, g, c);
      }
    } else {
      assert CallFor(t, g, read.row.callId.value);
    }
  }

  lemma UsageOfOrphan(s: State, g: GenId)
    requires Inv(s) && g in s.store.usage
    ensures UsageOk(s, g)
  {
  }

  lemma CommitLands(s: State, t: State, p: nat)
    requires Inv(s) && In(s, p) && PhaseOf(s, p).Committing? && Settles(s, t, p)
    ensures Inv(t)
  {
    hide Inv;
    Standing(s, p);
    var g := s.procs[p].gen;
    CommitRow(s, t, p);
    if g in t.store.usage { CommitUsage(s, t, p); }
    RowStep(s, t, p, g);
  }

  lemma CommitCheckKeeps(s: State, p: nat, answers: bool)
    requires Inv(s) && In(s, p) && PhaseOf(s, p).Committing?
    ensures Inv(ApplyCommit(s, p, answers))
  {
    hide Inv;
    Standing(s, p);
    var Committing(read, plan, answered) := PhaseOf(s, p);
    var t := ApplyCommit(s, p, answers);
    var next := t.procs[p].phase;
    var outcome := S.Commit(s.store, RequestOf(read.row, plan), plan.response, plan.usage,
                            read.row.key, s.now, s.retention).1;
    if outcome.Landed? {
      CommitLands(s, t, p);
    } else if next.Committing? {
      MoveCommitting(s, p, read, UNRECORDED, false);
    } else {
      MoveEnd(s, p, next);
    }
  }

  // ---------- the cancel ----------

  ghost predicate Marks(s: State, t: State, p: nat)
    requires In(s, p) && PhaseOf(s, p).Cancelling?
  {
    var g := s.procs[p].gen;
    && g in s.store.rows && s.store.rows[g].Unsettled()
    && t == s.(store := s.store.(rows := s.store.rows[g := S.CancelledRow(s.store.rows[g], s.now, s.retention)]),
               procs := t.procs)
    && OthersStand(s, t, p) && Continues(s, t, p) && In(t, p)
  }

  lemma MarkRow(s: State, t: State, p: nat)
    requires Inv(s) && In(s, p) && PhaseOf(s, p).Cancelling? && Marks(s, t, p)
    ensures RowOk(t, s.procs[p].gen) && OneRow(s, t, s.procs[p].gen)
    ensures s.procs[p].gen !in t.store.attempts
  {
    hide Inv;
    RowStanding(s, s.procs[p].gen);
    AttemptStanding(s, s.procs[p].gen);
    QuietKept(s, t, p);
  }

  lemma MarkApplies(s: State, p: nat, answers: bool)
    requires In(s, p) && PhaseOf(s, p).Cancelling?
    requires S.RequestCancel(s.store, s.procs[p].gen, PhaseOf(s, p).owner, s.now, s.retention).1.Some?
    ensures Marks(s, ApplyMark(s, p, answers), p)
    ensures var a := PhaseOf(ApplyMark(s, p, answers), p);
      a.Returned? || a.Gone? || a == Checking(Snapshot(ApplyMark(s, p, answers).store.rows[s.procs[p].gen], s.now))
  {
  }

  lemma MarkStep(s: State, t: State, p: nat)
    requires Inv(s) && In(s, p) && PhaseOf(s, p).Cancelling? && Marks(s, t, p)
    requires var a := t.procs[p].phase;
      a.Returned? || a.Gone? || a == Checking(Snapshot(t.store.rows[s.procs[p].gen], s.now))
    ensures Inv(t)
  {
    hide Inv;
    var g := s.procs[p].gen;
    Standing(s, p);
    MarkRow(s, t, p);
    MarkPhase(s, t, p);
    if g in s.store.usage { UsageKept(s, t, p, g); }
    hide RowOk;
    hide PhaseOk;
    RowStep(s, t, p, g);
  }

  lemma MarkLands(s: State, p: nat, answers: bool)
    requires Inv(s) && In(s, p) && PhaseOf(s, p).Cancelling?
    requires S.RequestCancel(s.store, s.procs[p].gen, PhaseOf(s, p).owner, s.now, s.retention).1.Some?
    ensures Inv(ApplyMark(s, p, answers))
  {
    hide Inv;
    MarkApplies(s, p, answers);
    MarkStep(s, ApplyMark(s, p, answers), p);
  }

  lemma MarkPhase(s: State, t: State, p: nat)
    requires In(s, p) && PhaseOf(s, p).Cancelling? && Marks(s, t, p) && RowOk(t, s.procs[p].gen)
    requires var a := t.procs[p].phase;
      a.Returned? || a.Gone? || a == Checking(Snapshot(t.store.rows[s.procs[p].gen], s.now))
    requires PhaseOk(s, p)
    ensures PhaseOk(t, p)
  {
  }

  lemma UsageKept(s: State, t: State, p: nat, g: GenId)
    requires Inv(s) && g in s.store.usage && OneRow(s, t, g)
    ensures UsageOk(t, g)
  {
    hide Inv;
    UsageOfOrphan(s, g);
    var c :| CallFor(s, g, c) && Ended(s, c) && s.ops[c].call.usage == Some(s.store.usage[g].usage);
    assert CallFor(t, g, c);
  }

  lemma MarkCancelKeeps(s: State, p: nat, answers: bool)
    requires Inv(s) && In(s, p) && PhaseOf(s, p).Cancelling?
    ensures Inv(ApplyMark(s, p, answers))
  {
    hide Inv;
    if S.RequestCancel(s.store, s.procs[p].gen, PhaseOf(s, p).owner, s.now, s.retention).1.Some? {
      MarkLands(s, p, answers);
    } else {
      MoveEnd(s, p, ApplyMark(s, p, answers).procs[p].phase);
    }
  }

  // ---------- the usage of an orphan ----------

  lemma MeterTables(s: State, t: State, p: nat, g: GenId)
    requires TablesOk(s) && RowsEvolve(s, t, p) && ProviderEvolves(s, t, p) && Known(s, g)
    requires t == s.(store := s.store.(usage := t.store.usage), procs := t.procs)
    requires forall h :: h in s.store.usage ==> h in t.store.usage && t.store.usage[h] == s.store.usage[h]
    requires forall h :: h in t.store.usage ==> h in s.store.usage || h == g
    requires g in t.store.usage ==> UsageOk(t, g)
    ensures TablesOk(t)
  {
    forall h | Known(t, h) ensures RowOk(t, h) { assert Known(s, h); FrameRow(s, t, p, h); }
    forall h | h in t.store.usage ensures UsageOk(t, h) { if h in s.store.usage { FrameUsage(s, t, p, h); } }
  }

  lemma MeterEvolves(s: State, t: State, p: nat)
    requires OthersStand(s, t, p) && Continues(s, t, p)
    requires t == s.(store := s.store.(usage := t.store.usage), procs := t.procs)
    ensures RowsEvolve(s, t, p) && ProviderEvolves(s, t, p)
  {
    QuietKept(s, t, p);
  }

  lemma UsageStep(s: State, t: State, p: nat, g: GenId)
    requires Inv(s) && OthersStand(s, t, p) && Continues(s, t, p) && Known(s, g)
    requires t == s.(store := s.store.(usage := t.store.usage), procs := t.procs)
    requires forall h :: h in s.store.usage ==> h in t.store.usage && t.store.usage[h] == s.store.usage[h]
    requires forall h :: h in t.store.usage ==> h in s.store.usage || h == g
    requires g in t.store.usage ==> UsageOk(t, g)
    requires In(t, p) ==> PhaseOk(t, p)
    ensures Inv(t)
  {
    MeterEvolves(s, t, p);
    MeterTables(s, t, p, g);
    FrameProvider(s, t, p);
    FrameUnique(s, t, p);
    FrameProcs(s, t, p);
  }

  lemma MeterOrphanKeeps(s: State, p: nat)
    requires Inv(s) && In(s, p) && PhaseOf(s, p).MeteringOrphan?
    ensures Inv(ApplyMeter(s, p))
  {
    hide Inv;
    Standing(s, p);
    var a := PhaseOf(s, p);
    var t := ApplyMeter(s, p);
    if !S.ValidUsage(a.usage) {
      MoveEnd(s, p, Gone);
    } else {
      CallStanding(s, p, a.row, a.call);
      if a.row.id in s.store.usage { UsageStanding(s, a.row.id, a.call); }
      assert CallFor(t, a.row.id, a.call) && Ended(t, a.call);
      UsageStep(s, t, p, a.row.id);
    }
  }

  // ---------- the submit's transaction ----------

  lemma InsertKeeps(s: State, p: nat, txAt: Time)
    requires Inv(s) && In(s, p) && PhaseOf(s, p).Submitting? && PhaseOf(s, p).key.owner !in s.locks
    requires PhaseOf(s, p).intentAt <= txAt <= s.now
    ensures Inv(ApplyInsert(s, p, txAt))
  {
    hide Inv;
    Standing(s, p);
    var t := ApplyInsert(s, p, txAt);
    if t.procs[p].phase.Returned? {
      MoveEnd(s, p, Returned);
    } else {
      LocalStep(s, t, p);
    }
  }

  lemma AdmitKeeps(s: State, p: nat, usageReached: bool)
    requires Inv(s) && In(s, p) && PhaseOf(s, p).Admitting?
    ensures Inv(ApplyAdmit(s, p, usageReached))
  {
    hide Inv;
    Standing(s, p);
    var t := ApplyAdmit(s, p, usageReached);
    if t.procs[p].phase.Returned? {
      MoveEnd(s, p, Returned);
    } else {
      LocalStep(s, t, p);
    }
  }

  lemma CommitSubmitEvolves(s: State, p: nat)
    requires In(s, p) && PhaseOf(s, p).Admitting? && PhaseOk(s, p)
    ensures RowsEvolve(s, ApplyCommitSubmit(s, p), p) && ProviderEvolves(s, ApplyCommitSubmit(s, p), p)
    ensures OthersStand(s, ApplyCommitSubmit(s, p), p)
  {
    QuietKept(s, ApplyCommitSubmit(s, p), p);
  }

  lemma CommitSubmitRow(s: State, p: nat)
    requires TablesOk(s) && In(s, p) && PhaseOf(s, p).Admitting? && PhaseOk(s, p)
    ensures Known(ApplyCommitSubmit(s, p), s.procs[p].gen) && RowOk(ApplyCommitSubmit(s, p), s.procs[p].gen)
  {
  }

  /** The commit adds its own row and leaves every other as it was. */
  lemma CommitSubmitAdds(s: State, p: nat)
    requires In(s, p) && PhaseOf(s, p).Admitting? && PhaseOk(s, p)
    ensures var t := ApplyCommitSubmit(s, p);
      && t.retention == s.retention && t.store.attempts == s.store.attempts && t.store.usage == s.store.usage
      && t.purged == s.purged && t.store.rows.Keys == s.store.rows.Keys + {s.procs[p].gen}
      && (forall h :: h in s.store.rows ==> h != s.procs[p].gen && t.store.rows[h] == s.store.rows[h])
  {
  }

  lemma CommitSubmitTables(s: State, p: nat)
    requires TablesOk(s) && In(s, p) && PhaseOf(s, p).Admitting? && PhaseOk(s, p)
    ensures TablesOk(ApplyCommitSubmit(s, p))
  {
    hide ApplyCommitSubmit, RowsEvolve, ProviderEvolves, OthersStand, RowOk, UsageOk, PhaseOk;
    var t := ApplyCommitSubmit(s, p);
    CommitSubmitEvolves(s, p);
    CommitSubmitRow(s, p);
    CommitSubmitAdds(s, p);
    forall h | Known(t, h) ensures RowOk(t, h) {
      if h != s.procs[p].gen { RowFrames(s, t, p, h); }
    }
    forall h | h in t.store.usage ensures UsageOk(t, h) { FrameUsage(s, t, p, h); }
  }

  lemma RowFrames(s: State, t: State, p: nat, h: GenId)
    requires TablesOk(s) && RowsEvolve(s, t, p) && ProviderEvolves(s, t, p)
    requires Known(s, h) && (h in t.store.rows <==> h in s.store.rows) && RowOf(t, h) == RowOf(s, h)
    requires t.purged == s.purged && t.store.attempts == s.store.attempts && t.store.usage == s.store.usage
    ensures RowOk(t, h)
  {
    hide RowsEvolve, ProviderEvolves;
    assert RowOk(s, h);
    FrameRow(s, t, p, h);
  }

  lemma CommitSubmitKeys(s: State, p: nat)
    requires KeysUnique(s) && In(s, p) && PhaseOf(s, p).Admitting? && PhaseOk(s, p)
    ensures KeysUnique(ApplyCommitSubmit(s, p))
  {
  }

  lemma CommitSubmitKeeps(s: State, p: nat)
    requires Inv(s) && In(s, p) && PhaseOf(s, p).Admitting?
    ensures Inv(ApplyCommitSubmit(s, p))
  {
    hide TablesOk, ProviderOk, KeysUnique, RowsEvolve, ProviderEvolves;
    var t := ApplyCommitSubmit(s, p);
    assert PhaseOk(s, p);
    CommitSubmitEvolves(s, p);
    CommitSubmitTables(s, p);
    CommitSubmitKeys(s, p);
    FrameProvider(s, t, p);
    FrameUnique(s, t, p);
    FrameProcs(s, t, p);
  }

  // ---------- new processes ----------

  lemma SpawnEvolves(s: State, t: State, p: nat)
    requires p !in s.procs && p in t.procs && t == s.(minted := t.minted, procs := s.procs[p := t.procs[p]])
    requires s.minted <= t.minted && (BeforeSend(t.procs[p].phase) ==> t.procs[p].gen !in s.minted)
    ensures RowsEvolve(s, t, p) && ProviderEvolves(s, t, p) && OthersStand(s, t, p)
  {
  }

  lemma Spawn(s: State, t: State, p: nat)
    requires Inv(s)
    requires p !in s.procs && p in t.procs && t == s.(minted := t.minted, procs := s.procs[p := t.procs[p]])
    requires s.minted <= t.minted && PhaseOk(t, p)
    requires t.procs[p].role == Submitter || BeforeSend(t.procs[p].phase) ==> t.procs[p].gen !in s.minted
    ensures Inv(t)
  {
    SpawnEvolves(s, t, p);
    FrameTables(s, t, p);
    SpawnUnique(s, t, p);
    SpawnProvider(s, t, p);
    FrameProcs(s, t, p);
  }

  lemma SpawnUnique(s: State, t: State, p: nat)
    requires ProcsOk(s) && OthersStand(s, t, p) && p !in s.procs && p in t.procs
    requires t.procs[p].role == Submitter ==> t.procs[p].gen !in s.minted
    ensures SubmittersUnique(t)
  {
    forall q | q in s.procs && s.procs[q].role == Submitter
      ensures s.procs[q].gen in s.minted
    {
      assert PhaseOk(s, q);
    }
  }

  lemma SpawnProvider(s: State, t: State, p: nat)
    requires ProviderOk(s) && p !in s.procs && p in t.procs && s.minted <= t.minted
    requires t == s.(minted := t.minted, procs := s.procs[p := t.procs[p]])
    ensures ProviderOk(t)
  {
  }

  lemma BeginSubmitKeeps(s: State, p: nat, g: GenId, key: Identity, limit: Option<nat>)
    requires Inv(s) && p !in s.procs && g !in s.minted
    ensures Inv(Spawned(s.(minted := s.minted + {g}), p, Submitter, g, Submitting(key, limit, s.now)))
  {
    var t := Spawned(s.(minted := s.minted + {g}), p, Submitter, g, Submitting(key, limit, s.now));
    assert Known(s, g) ==> RowOk(s, g);
    assert p !in s.requests;
    hide Inv;
    Spawn(s, t, p);
  }

  lemma BeginCheckKeeps(s: State, p: nat, g: GenId)
    requires Inv(s) && p !in s.procs && g in s.store.rows
    ensures Inv(Spawned(s, p, Checker, g, Checking(Snapshot(s.store.rows[g], s.now))))
  {
    hide Inv;
    RowStanding(s, g);
    Spawn(s, Spawned(s, p, Checker, g, Checking(Snapshot(s.store.rows[g], s.now))), p);
  }

  lemma BeginCancelKeeps(s: State, p: nat, g: GenId, owner: seq<byte>)
    requires Inv(s) && p !in s.procs
    ensures Inv(Spawned(s, p, Canceller, g, Cancelling(owner)))
  {
    hide Inv;
    Spawn(s, Spawned(s, p, Canceller, g, Cancelling(owner)), p);
  }

  // ---------- the send, and what the provider does with it ----------

  lemma SendEvolves(s: State, p: nat)
    requires In(s, p) && PhaseOf(s, p).Starting? && !PhaseOf(s, p).sent && PhaseOk(s, p)
    ensures RowsEvolve(s, ApplySend(s, p), p) && ProviderEvolves(s, ApplySend(s, p), p)
    ensures OthersStand(s, ApplySend(s, p), p)
  {
    var t := ApplySend(s, p);
    forall g | Quiet(s, g) ensures Quiet(t, g) { assert g != s.procs[p].gen; }
  }

  lemma SendProvider(s: State, p: nat)
    requires ProviderOk(s) && In(s, p) && PhaseOf(s, p).Starting? && !PhaseOf(s, p).sent && PhaseOk(s, p)
    ensures ProviderOk(ApplySend(s, p))
  {
  }

  lemma SendPhase(s: State, p: nat)
    requires In(s, p) && PhaseOf(s, p).Starting? && !PhaseOf(s, p).sent && PhaseOk(s, p)
    ensures PhaseOk(ApplySend(s, p), p)
  {
  }

  lemma SendKeeps(s: State, p: nat)
    requires Inv(s) && In(s, p) && PhaseOf(s, p).Starting? && !PhaseOf(s, p).sent
    ensures Inv(ApplySend(s, p))
  {
    var t := ApplySend(s, p);
    assert PhaseOk(s, p);
    SendEvolves(s, p);
    SendProvider(s, p);
    SendPhase(s, p);
    FrameTables(s, t, p);
    FrameUnique(s, t, p);
    FrameProcs(s, t, p);
  }

  lemma FreshProcess(procs: set<nat>) returns (p: nat)
    ensures p !in procs
    ensures forall q :: q in procs ==> q < p
  {
    if procs == {} {
      p := 0;
    } else {
      var q :| q in procs;
      var r := FreshProcess(procs - {q});
      p := if q < r then r else q + 1;
      assert forall o :: o in procs ==> o == q || o in procs - {q};
    }
  }

  /** A step of the world around the processes: none of them moves, and no row does. */
  ghost predicate OnlyAround(s: State, t: State) {
    && t == s.(now := t.now, late := t.late, requests := t.requests, ops := t.ops) && s.now <= t.now
    && (forall q :: q in s.requests ==>
          q in t.requests && t.requests[q].gen == s.requests[q].gen
          && (s.requests[q].fate.InFlight? || t.requests[q].fate == s.requests[q].fate))
    && (forall q :: q in t.requests ==> q in s.requests)
    && (forall c :: c in s.ops ==>
          c in t.ops && t.ops[c].gen == s.ops[c].gen
          && (s.ops[c].call.state.Terminal() ==> t.ops[c].call == s.ops[c].call))
  }

  lemma AroundEvolves(s: State, t: State, p: nat)
    requires OnlyAround(s, t)
    ensures RowsEvolve(s, t, p) && ProviderEvolves(s, t, p) && OthersStand(s, t, p)
  {
  }

  lemma AroundStep(s: State, t: State)
    requires Inv(s) && OnlyAround(s, t) && ProviderOk(t)
    ensures Inv(t)
  {
    var p := FreshProcess(s.procs.Keys);
    AroundEvolves(s, t, p);
    FrameTables(s, t, p);
    FrameProcs(s, t, p);
  }

  lemma Parts(s: State)
    requires Inv(s)
    ensures ProviderOk(s)
  {
  }

  lemma TickKeeps(s: State, now: Time)
    requires Inv(s) && s.now <= now
    ensures Inv(s.(now := now))
  {
    hide Inv;
    Parts(s);
    AroundStep(s, s.(now := now));
  }

  function AcceptState(s: State, p: nat, c: CallId, call: Call): State
    requires p in s.requests
  {
    s.(requests := s.requests[p := s.requests[p].(fate := Accepted(c))],
       ops := s.ops[c := Operation(s.requests[p].gen, p, call)])
  }

  lemma AcceptProvider(s: State, p: nat, c: CallId, call: Call)
    requires ProviderOk(s) && MoveEnabled(s, ProviderAccepts(p, c, call))
    ensures ProviderOk(AcceptState(s, p, c, call))
  {
    hide BeforeSend;
  }

  lemma AcceptAround(s: State, p: nat, c: CallId, call: Call)
    requires MoveEnabled(s, ProviderAccepts(p, c, call))
    ensures OnlyAround(s, AcceptState(s, p, c, call))
  {
  }

  lemma ProviderAcceptsKeeps(s: State, p: nat, c: CallId, call: Call)
    requires Inv(s) && MoveEnabled(s, ProviderAccepts(p, c, call))
    ensures Inv(Surround(s, ProviderAccepts(p, c, call)))
  {
    hide Inv;
    Parts(s);
    AcceptProvider(s, p, c, call);
    AcceptAround(s, p, c, call);
    AroundStep(s, AcceptState(s, p, c, call));
  }

  function RefuseState(s: State, p: nat): State
    requires p in s.requests
  {
    s.(requests := s.requests[p := s.requests[p].(fate := Fate.Refused)])
  }

  lemma RefuseProvider(s: State, p: nat)
    requires ProviderOk(s) && MoveEnabled(s, ProviderRefuses(p))
    ensures ProviderOk(RefuseState(s, p))
  {
    hide BeforeSend;
  }

  lemma RefuseAround(s: State, p: nat)
    requires MoveEnabled(s, ProviderRefuses(p))
    ensures OnlyAround(s, RefuseState(s, p))
  {
  }

  lemma ProviderRefusesKeeps(s: State, p: nat)
    requires Inv(s) && MoveEnabled(s, ProviderRefuses(p))
    ensures Inv(Surround(s, ProviderRefuses(p)))
  {
    hide Inv;
    Parts(s);
    RefuseProvider(s, p);
    RefuseAround(s, p);
    AroundStep(s, RefuseState(s, p));
  }

  function MoveState(s: State, c: CallId, call: Call): State
    requires c in s.ops
  {
    s.(ops := s.ops[c := s.ops[c].(call := call)])
  }

  lemma MoveProvider(s: State, c: CallId, call: Call)
    requires ProviderOk(s) && MayMove(s, c, call)
    ensures ProviderOk(MoveState(s, c, call))
  {
    hide BeforeSend;
  }

  lemma MoveAround(s: State, c: CallId, call: Call)
    requires MayMove(s, c, call)
    ensures OnlyAround(s, MoveState(s, c, call))
  {
  }

  lemma ProviderMovesKeeps(s: State, c: CallId, call: Call)
    requires Inv(s) && MayMove(s, c, call)
    ensures Inv(Surround(s, ProviderMoves(c, call)))
  {
    hide Inv;
    Parts(s);
    MoveProvider(s, c, call);
    MoveAround(s, c, call);
    AroundStep(s, MoveState(s, c, call));
  }

  /** A late write may be dropped, and only one that names the generation's call is ever added. */
  lemma LateKeeps(s: State, t: State)
    requires Inv(s) && t == s.(late := t.late)
    requires forall w :: w in t.late ==> w in s.late || CallFor(s, w.gen, w.call)
    ensures Inv(t)
  {
    hide Inv;
    Parts(s);
    LateProvider(s, t);
    AroundStep(s, t);
  }

  lemma LateProvider(s: State, t: State)
    requires ProviderOk(s) && t == s.(late := t.late)
    requires forall w :: w in t.late ==> w in s.late || CallFor(s, w.gen, w.call)
    ensures ProviderOk(t) && OnlyAround(s, t)
  {
  }

  lemma LateStanding(s: State, w: LateWrite)
    requires Inv(s) && w in s.late
    ensures CallFor(s, w.gen, w.call)
  {
  }

  lemma LateLandsKeeps(s: State, w: LateWrite)
    requires Inv(s) && w in s.late
    ensures Inv(ApplyLate(s, w))
  {
    var t := ApplyLate(s, w);
    hide Inv;
    LateStanding(s, w);
    if S.Record(s.store, w.gen, w.call).1.Landed? {
      var p := FreshProcess(s.procs.Keys);
      RecordRow(s, t, p, w.gen, w.call);
    } else {
      LateKeeps(s, t);
    }
  }

  lemma LoseWriteKeeps(s: State, p: nat)
    requires Inv(s) && In(s, p) && PhaseOf(s, p).Writing?
    ensures Inv(ApplyLoseWrite(s, p))
  {
    hide Inv;
    Standing(s, p);
    var a := PhaseOf(s, p);
    var t := ApplyLoseWrite(s, p);
    CallStanding(s, p, a.row, a.call);
    MoveHolder(s, p, t.procs[p].phase, s.stops);
    LateKeeps(At(s, p, t.procs[p].phase), t);
  }

  // ---------- the purge ----------

  lemma PurgeEvolves(s: State, ids: set<GenId>, p: nat)
    requires TablesOk(s) && p !in s.procs
    requires forall g | g in ids :: g in s.store.rows && S.Expired(s.store.rows[g], s.now)
    ensures RowsEvolve(s, ApplyPurge(s, ids), p) && ProviderEvolves(s, ApplyPurge(s, ids), p)
  {
    forall g | Known(s, g) ensures RowOk(s, g) {}
  }

  lemma PurgeTables(s: State, ids: set<GenId>, p: nat)
    requires TablesOk(s) && p !in s.procs
    requires forall g | g in ids :: g in s.store.rows && S.Expired(s.store.rows[g], s.now)
    ensures TablesOk(ApplyPurge(s, ids))
  {
    var t := ApplyPurge(s, ids);
    PurgeEvolves(s, ids, p);
    forall g | Known(t, g) ensures RowOk(t, g) {
      assert RowOk(s, g);
      FrameRow(s, t, p, g);
    }
    forall g | g in t.store.usage ensures UsageOk(t, g) { FrameUsage(s, t, p, g); }
  }

  lemma PurgeProvider(s: State, ids: set<GenId>)
    requires ProviderOk(s) && KeysUnique(s) && forall g | g in ids :: g in s.store.rows
    ensures ProviderOk(ApplyPurge(s, ids)) && KeysUnique(ApplyPurge(s, ids))
  {
  }

  lemma PurgeKeeps(s: State, ids: set<GenId>)
    requires Inv(s) && MoveEnabled(s, Purge(ids))
    ensures Inv(ApplyPurge(s, ids))
  {
    hide TablesOk, ProviderOk, KeysUnique, PhaseOk, RowsEvolve, ProviderEvolves;
    var t := ApplyPurge(s, ids);
    var p := FreshProcess(s.procs.Keys);
    PurgeEvolves(s, ids, p);
    PurgeTables(s, ids, p);
    PurgeProvider(s, ids);
    FrameProcs(s, t, p);
  }

  // ---------- every step ----------

  lemma MoveKeeps(s: State, move: Move)
    requires Inv(s) && MoveEnabled(s, move)
    ensures Inv(Surround(s, move))
  {
    hide Inv;
    match move
    case Tick(t) => TickKeeps(s, t);
    case Purge(ids) => PurgeKeeps(s, ids);
    case ProviderAccepts(p, c, call) => ProviderAcceptsKeeps(s, p, c, call);
    case ProviderRefuses(p) => ProviderRefusesKeeps(s, p);
    case ProviderMoves(c, call) => ProviderMovesKeeps(s, c, call);
    case LateLands(w) => LateLandsKeeps(s, w);
    case LateDrops(w) => LateKeeps(s, Surround(s, move));
    case BeginSubmit(p, g, key, limit) => BeginSubmitKeeps(s, p, g, key, limit);
    case BeginCheck(p, g) => BeginCheckKeeps(s, p, g);
    case BeginCancel(p, g, owner) => BeginCancelKeeps(s, p, g, owner);
  }

  lemma SubmitKeeps(s: State, p: nat, action: SubmitAction)
    requires Inv(s) && SubmitEnabled(s, p, action)
    ensures Inv(ActSubmit(s, p, action))
  {
    hide Inv;
    match action
    case Insert(txAt) => InsertKeeps(s, p, txAt);
    case Admit(usageReached) => AdmitKeeps(s, p, usageReached);
    case CommitSubmit => CommitSubmitKeeps(s, p);
    case BeginStart(served) => BeginStartKeeps(s, p, served);
    case Send => SendKeeps(s, p);
    case StartFails(error, body) => StartFailsKeeps(s, p, error, body);
    case StartNames => StartNamesKeeps(s, p);
  }

  lemma RecordKeeps(s: State, p: nat, action: RecordAction)
    requires Inv(s) && RecordEnabled(s, p, action)
    ensures Inv(ActRecord(s, p, action))
  {
    hide Inv;
    match action
    case Write => WriteKeeps(s, p);
    case LoseWrite => LoseWriteKeeps(s, p);
    case Wake => WakeKeeps(s, p);
    case ReadBack => ReadBackKeeps(s, p);
    case StopOrphan => StopOrphanKeeps(s, p);
    case OrphanAnswers(reply) => OrphanAnswersKeeps(s, p, reply);
    case MeterOrphan => MeterOrphanKeeps(s, p);
    case FinishStart => FinishStartKeeps(s, p);
  }

  lemma CheckKeeps(s: State, p: nat, action: CheckAction)
    requires Inv(s) && CheckEnabled(s, p, action)
    ensures Inv(ActCheck(s, p, action))
  {
    hide Inv;
    match action
    case RouteCheck => RouteCheckKeeps(s, p);
    case Ask(served) => AskKeeps(s, p, served);
    case Hear(reply) => HearKeeps(s, p, reply);
    case ReadLabel => ReadLabelKeeps(s, p);
    case CommitCheck(answers) => CommitCheckKeeps(s, p, answers);
    case Reread => MoveEnd(s, p, if s.procs[p].gen in s.store.rows then Returned else Gone);
    case MarkCancel(answers) => MarkCancelKeeps(s, p, answers);
  }

  lemma StepKeeps(s: State, step: Step)
    requires Inv(s) && Enabled(s, step)
    ensures Inv(Apply(s, step))
  {
    hide Inv;
    match step
    case Around(move) => MoveKeeps(s, move);
    case Leaves(p) => MoveEnd(s, p, Gone);
    case Submits(p, action) => SubmitKeeps(s, p, action);
    case Records(p, action) => RecordKeeps(s, p, action);
    case Checks(p, action) => CheckKeeps(s, p, action);
  }

  lemma InitHolds(s: State)
    requires Init(s)
    ensures Inv(s)
  {
    forall g | Known(s, g) ensures RowOk(s, g) {
      assert s.store.rows[g].id == g;
    }
  }

  /** The invariant holds in every state a run reaches. */
  lemma {:induction false} RunKeeps(s: State, steps: seq<Step>)
    requires Inv(s) && ValidRun(s, steps)
    ensures Inv(Final(s, steps))
    decreases |steps|
  {
    if steps != [] {
      StepKeeps(s, steps[0]);
      RunKeeps(Apply(s, steps[0]), steps[1..]);
    }
  }
}
