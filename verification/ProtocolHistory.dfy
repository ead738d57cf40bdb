/** What a run says about the calls the provider accepted, and how the rows and the usage evolve along it. */
module ProtocolHistory {
  import opened Types
  import opened Check
  import opened Protocol
  import opened ProtocolInvariant
  import opened ProtocolSafety
  import opened ProtocolSteps
  import S = Store

  // ---------- accepted calls ----------

  /** A generation that will get no call has none. */
  lemma QuietHasNoCall(s: State, c: CallId)
    requires Inv(s) && c in s.ops
    ensures !Quiet(s, s.ops[c].gen)
  {
  }

  /** A call that was accepted and is on no row never hides behind an outcome that says nothing ran. */
  lemma AcceptedCallIsTracked(s: State, c: CallId)
    requires Inv(s) && c in s.ops
    ensures Known(s, s.ops[c].gen)
    ensures var r := RowOf(s, s.ops[c].gen);
      || r.callId == Some(c)
      || (r.callId.None? && r.startRequestedAt.Some? && (r.Unsettled() || r.failure == Some(OutcomeUnknown)))
  {
    var g := s.ops[c].gen;
    ProviderStanding(s, c);
    hide Inv;
    RowStanding(s, g);
    QuietHasNoCall(s, c);
    var r := RowOf(s, g);
    if r.callId.Some? { OneCallHere(s, c, r.callId.value); }
  }

  lemma ProviderStanding(s: State, c: CallId)
    requires Inv(s) && c in s.ops
    ensures Known(s, s.ops[c].gen)
  {
  }

  lemma OneCallHere(s: State, c: CallId, d: CallId)
    requires Inv(s) && c in s.ops && d in s.ops && s.ops[c].gen == s.ops[d].gen
    ensures c == d
  {
    OneCall(s, c, d);
  }

  /** Whatever the interleaving, an accepted call is on its generation, or its generation says that one may be running. */
  lemma OrphansAreUnknown(s0: State, steps: seq<Step>)
    requires Init(s0) && ValidRun(s0, steps)
    ensures var s := Final(s0, steps);
      forall c :: c in s.ops ==>
        && Known(s, s.ops[c].gen)
        && var r := RowOf(s, s.ops[c].gen);
        || r.callId == Some(c)
        || (r.callId.None? && r.startRequestedAt.Some? && (r.Unsettled() || r.failure == Some(OutcomeUnknown)))
  {
    InitHolds(s0);
    RunKeeps(s0, steps);
    var s := Final(s0, steps);
    hide Inv;
    forall c | c in s.ops
      ensures Known(s, s.ops[c].gen)
      ensures var r := RowOf(s, s.ops[c].gen);
        || r.callId == Some(c)
        || (r.callId.None? && r.startRequestedAt.Some? && (r.Unsettled() || r.failure == Some(OutcomeUnknown)))
    {
      AcceptedCallIsTracked(s, c);
    }
  }

  /** A generation's request leaves once at most, from the submit that created it, and gets one call at most. A submit
    * that recorded no generation, a replay or a refusal, sent nothing. And two calls of one request are never both
    * live or succeeded. */
  lemma PaidOnce(s0: State, steps: seq<Step>)
    requires Init(s0) && ValidRun(s0, steps)
    ensures var s := Final(s0, steps);
      && (forall g :: s.sends[g] <= 1 && (s.sends[g] > 0 ==> Known(s, g)))
      && (forall p :: p in s.requests ==> p in s.procs && s.procs[p].role == Submitter && s.procs[p].gen == s.requests[p].gen)
      && (forall c, d :: c in s.ops && d in s.ops && c != d ==>
            && s.ops[c].gen != s.ops[d].gen
            && !(&& s.ops[c].gen in s.store.rows && s.ops[d].gen in s.store.rows
                 && s.store.rows[s.ops[c].gen].key == s.store.rows[s.ops[d].gen].key
                 && S.HoldsKey(s.store.rows[s.ops[c].gen]) && S.HoldsKey(s.store.rows[s.ops[d].gen])))
  {
    InitHolds(s0);
    RunKeeps(s0, steps);
    var s := Final(s0, steps);
    forall c, d | c in s.ops && d in s.ops && c != d
      ensures s.ops[c].gen != s.ops[d].gen
    {
      if s.ops[c].gen == s.ops[d].gen { OneCall(s, c, d); }
    }
  }

  // ---------- rows over time ----------

  /** Every row the database held is either still what it was, or a later version of it. */
  ghost predicate RowsGrow(s: State, t: State) {
    forall g :: Known(s, g) ==> Known(t, g) && S.Precedes(RowOf(s, g), RowOf(t, g))
  }

  lemma RecordGrows(s: State, g: GenId, c: CallId)
    requires TablesOk(s)
    ensures RowsGrow(s, s.(store := S.Record(s.store, g, c).0))
  {
    var t := s.(store := S.Record(s.store, g, c).0);
    forall h | Known(s, h) ensures Known(t, h) && S.Precedes(RowOf(s, h), RowOf(t, h)) { assert RowOk(s, h); }
  }

  lemma PurgeGrows(s: State, ids: set<GenId>)
    requires TablesOk(s) && MoveEnabled(s, Purge(ids))
    ensures RowsGrow(s, ApplyPurge(s, ids))
  {
    forall h | Known(s, h) ensures S.Precedes(RowOf(s, h), RowOf(ApplyPurge(s, ids), h)) { assert RowOk(s, h); }
  }

  lemma MoveGrows(s: State, move: Move)
    requires TablesOk(s) && MoveEnabled(s, move)
    ensures RowsGrow(s, Surround(s, move)) && s.stops <= Surround(s, move).stops
  {
    match move
    case Purge(ids) => PurgeGrows(s, ids);
    case LateLands(w) => RecordGrows(s, w.gen, w.call);
    case _ =>
  }

  lemma CommitGrows(s: State, p: nat, answers: bool)
    requires In(s, p) && PhaseOf(s, p).Committing?
    ensures RowsGrow(s, ApplyCommit(s, p, answers))
  {
  }

  lemma MarkGrows(s: State, p: nat, answers: bool)
    requires In(s, p) && PhaseOf(s, p).Cancelling?
    ensures RowsGrow(s, ApplyMark(s, p, answers))
  {
    MarkRows(s, p, answers);
    MarkLeaves(s, p, answers);
    hide ApplyMark;
  }

  lemma SubmitGrows(s: State, p: nat)
    requires In(s, p) && PhaseOf(s, p).Admitting? && PhaseOk(s, p)
    ensures RowsGrow(s, ApplyCommitSubmit(s, p))
  {
  }

  /** A step of one process moves no other, and the process keeps its role and its generation. */
  ghost predicate OneMoves(s: State, t: State, p: nat) {
    && In(s, p) && In(t, p) && t.procs == s.procs[p := t.procs[p]] && s.stops <= t.stops
    && s.procs[p].role == t.procs[p].role && s.procs[p].gen == t.procs[p].gen
  }

  lemma SameRowsGrow(s: State, t: State)
    requires t.store.rows == s.store.rows && t.purged == s.purged
    ensures RowsGrow(s, t)
  {
  }

  lemma SubmitActionGrows(s: State, p: nat, action: SubmitAction)
    requires SubmitEnabled(s, p, action) && PhaseOk(s, p)
    ensures RowsGrow(s, ActSubmit(s, p, action))
  {
    hide S.NewRow, AfterReady, AfterStartError, FirstWrite, S.Precedes;
    match action
    case CommitSubmit => SubmitGrows(s, p);
    case Insert(txAt) => InsertRests(s, p, txAt); SameRowsGrow(s, ActSubmit(s, p, action));
    case _ => hide ApplyInsert; SameRowsGrow(s, ActSubmit(s, p, action));
  }

  lemma SubmitActionMoves(s: State, p: nat, action: SubmitAction)
    requires SubmitEnabled(s, p, action)
    ensures OneMoves(s, ActSubmit(s, p, action), p)
  {
    hide S.NewRow, AfterReady, AfterStartError, FirstWrite;
    match action
    case Insert(txAt) => InsertRests(s, p, txAt);
    case _ => hide ApplyInsert;
  }

  lemma RecordActionGrows(s: State, p: nat, action: RecordAction)
    requires RecordEnabled(s, p, action) && TablesOk(s)
    ensures RowsGrow(s, ActRecord(s, p, action))
  {
    match action
    case Write => RecordGrows(s, PhaseOf(s, p).row.id, PhaseOf(s, p).call);
    case ReadBack => ReadBackMoves(s, p); SameRowsGrow(s, ApplyReadBack(s, p));
    case _ =>
      hide ApplyWrite, ApplyReadBack, S.WithUsage, S.UsageOf, S.ValidUsage, S.Precedes, S.WellFormed;
      SameRowsGrow(s, ActRecord(s, p, action));
  }

  lemma RecordActionMoves(s: State, p: nat, action: RecordAction)
    requires RecordEnabled(s, p, action)
    ensures OneMoves(s, ActRecord(s, p, action), p)
  {
    match action
    case Write => WriteMoves(s, p);
    case ReadBack => ReadBackMoves(s, p);
    case _ => hide ApplyWrite, ApplyReadBack, S.WithUsage, S.UsageOf, S.ValidUsage;
  }

  lemma CheckActionGrows(s: State, p: nat, action: CheckAction)
    requires CheckEnabled(s, p, action)
    ensures RowsGrow(s, ActCheck(s, p, action))
  {
    match action
    case CommitCheck(answers) => CommitGrows(s, p, answers);
    case MarkCancel(answers) => MarkGrows(s, p, answers);
    case _ => SameRowsGrow(s, ActCheck(s, p, action));
  }

  lemma CommitMoves(s: State, p: nat, answers: bool)
    requires In(s, p) && PhaseOf(s, p).Committing?
    ensures OneMoves(s, ApplyCommit(s, p, answers), p)
  {
    hide S.Commit;
  }

  lemma MarkMoves(s: State, p: nat, answers: bool)
    requires In(s, p) && PhaseOf(s, p).Cancelling?
    ensures OneMoves(s, ApplyMark(s, p, answers), p)
  {
    hide S.RequestCancel;
  }

  lemma AskMoves(s: State, p: nat, served: bool)
    requires In(s, p) && PhaseOf(s, p).Observing? && Observable(PhaseOf(s, p).read)
    ensures var t, read := ApplyAsk(s, p, served), PhaseOf(s, p).read;
      && OneMoves(s, t, p) && Rests(s, t, p)
      && t.procs[p] == s.procs[p].(phase := t.procs[p].phase)
      && ((t.procs[p].phase.Committing? && t.procs[p].phase.read == read)
          || (t.procs[p].phase.Awaiting? && (read.row.cancelRequestedAt.Some? ==> read.row.callId.value in t.stops)))
  {
  }

  lemma HearMoves(s: State, p: nat, reply: Reply)
    requires In(s, p) && PhaseOf(s, p).Awaiting? && Observable(PhaseOf(s, p).read)
    ensures var t := ApplyHear(s, p, reply);
      && OneMoves(s, t, p) && Rests(s, t, p)
      && t.procs[p] == s.procs[p].(phase := t.procs[p].phase)
      && var a := t.procs[p].phase;
         (a.Awaiting? || a.Returned? || a.Relabelling? || (a.Committing? && a.read == PhaseOf(s, p).read))
  {
    hide Judge;
  }

  lemma ReadBackMoves(s: State, p: nat)
    requires In(s, p) && PhaseOf(s, p).ReadingBack?
    ensures var t := ApplyReadBack(s, p);
      && OneMoves(s, t, p) && Rests(s, t, p)
      && (t.procs[p].phase.Gone? || t.procs[p].phase.Recorded? || t.procs[p].phase.StoppingOrphan?)
  {
  }

  lemma CheckActionMoves(s: State, p: nat, action: CheckAction)
    requires CheckEnabled(s, p, action)
    ensures OneMoves(s, ActCheck(s, p, action), p)
  {
    match action
    case CommitCheck(answers) => CommitMoves(s, p, answers);
    case MarkCancel(answers) => MarkMoves(s, p, answers);
    case Hear(reply) => HearMoves(s, p, reply);
    case _ =>
  }

  // ---------- what single steps leave alone ----------

  /** The step touches no row and no late write, and takes no time. */
  ghost predicate Rests(s: State, t: State, p: nat) {
    && t.now == s.now && t.slack == s.slack && t.late == s.late && t.store.rows == s.store.rows && t.purged == s.purged
  }

  lemma InsertRests(s: State, p: nat, txAt: Time)
    requires In(s, p) && PhaseOf(s, p).Submitting?
    ensures var t := ApplyInsert(s, p, txAt);
      && OneMoves(s, t, p) && Rests(s, t, p) && (t.procs[p].phase.Returned? || t.procs[p].phase.Admitting?)
  {
    hide S.HoldsKey, S.NewRow;
  }

  lemma WriteMoves(s: State, p: nat)
    requires In(s, p) && PhaseOf(s, p).Writing?
    ensures OneMoves(s, ApplyWrite(s, p), p)
  {
    hide S.Record;
  }

  lemma WriteLeaves(s: State, p: nat)
    requires In(s, p) && PhaseOf(s, p).Writing?
    ensures var t := ApplyWrite(s, p);
      && In(t, p) && t.now == s.now && t.slack == s.slack && t.late == s.late && t.purged == s.purged
      && (t.procs[p].phase.Recorded? || t.procs[p].phase.StoppingOrphan? || t.procs[p].phase.ReadingBack?)
  {
    hide S.Record;
  }

  lemma WriteRows(s: State, p: nat)
    requires In(s, p) && PhaseOf(s, p).Writing?
    ensures var t, g := ApplyWrite(s, p), PhaseOf(s, p).row.id;
      || t.store.rows == s.store.rows
      || (g in s.store.rows && t.store.rows == s.store.rows[g := S.RecordedRow(s.store.rows[g], PhaseOf(s, p).call)])
  {
  }

  lemma CommitLeaves(s: State, p: nat, answers: bool)
    requires In(s, p) && PhaseOf(s, p).Committing?
    ensures var t := ApplyCommit(s, p, answers);
      && t.now == s.now && t.slack == s.slack && t.late == s.late && t.purged == s.purged
      && var a, g := t.procs[p].phase, PhaseOf(s, p).read.row.id;
      && (a.Returned? || a.Rereading? || a.Gone? || (a.Committing? && a.read == PhaseOf(s, p).read))
      && t.store.rows.Keys == s.store.rows.Keys
      && (forall h :: h in s.store.rows && h != g ==> t.store.rows[h] == s.store.rows[h])
      && (g in s.store.rows ==>
            t.store.rows[g] == s.store.rows[g] || t.store.rows[g].callId == PhaseOf(s, p).read.row.callId)
  {
  }

  /** A cancel settles only a generation that never started. */
  lemma MarkRows(s: State, p: nat, answers: bool)
    requires In(s, p) && PhaseOf(s, p).Cancelling?
    ensures var t, g := ApplyMark(s, p, answers), s.procs[p].gen;
      || t.store.rows == s.store.rows
      || (g in s.store.rows && s.store.rows[g].Unsettled()
          && t.store.rows == s.store.rows[g := S.CancelledRow(s.store.rows[g], s.now, s.retention)])
  {
  }

  lemma MarkLeaves(s: State, p: nat, answers: bool)
    requires In(s, p) && PhaseOf(s, p).Cancelling?
    ensures var t := ApplyMark(s, p, answers);
      && In(t, p) && t.now == s.now && t.slack == s.slack && t.late == s.late && t.purged == s.purged
      && (t.procs[p].phase.Returned? || t.procs[p].phase.Gone? || t.procs[p].phase.Checking?)
  {
    hide S.RequestCancel;
  }

  lemma StepGrows(s: State, step: Step)
    requires Inv(s) && Enabled(s, step)
    ensures RowsGrow(s, Apply(s, step)) && s.stops <= Apply(s, step).stops
  {
    match step
    case Around(move) => MoveGrows(s, move);
    case Leaves(p) =>
    case Submits(p, action) => SubmitActionGrows(s, p, action); SubmitActionMoves(s, p, action);
    case Records(p, action) => RecordActionGrows(s, p, action); RecordActionMoves(s, p, action);
    case Checks(p, action) => CheckActionGrows(s, p, action); CheckActionMoves(s, p, action);
  }

  /** Along every run, a call id and a cancel mark land once each, and a settled row never changes again. */
  lemma {:induction false} RunGrows(s: State, steps: seq<Step>)
    requires Inv(s) && ValidRun(s, steps)
    ensures RowsGrow(s, Final(s, steps)) && s.stops <= Final(s, steps).stops
    decreases |steps|
  {
    if steps != [] {
      StepGrows(s, steps[0]);
      StepKeeps(s, steps[0]);
      RunGrows(Apply(s, steps[0]), steps[1..]);
      GrowsTransitive(s, Apply(s, steps[0]), Final(s, steps));
    }
  }

  lemma GrowsTransitive(s: State, t: State, u: State)
    requires RowsGrow(s, t) && RowsGrow(t, u)
    ensures RowsGrow(s, u)
  {
    forall g | Known(s, g) ensures Known(u, g) && S.Precedes(RowOf(s, g), RowOf(u, g)) {
      S.PrecedesTransitive(RowOf(s, g), RowOf(t, g), RowOf(u, g));
    }
  }

  /** Every row a run reaches is well formed: its status, class, call id, marks and dates agree. */
  lemma RowsWellFormed(s0: State, steps: seq<Step>)
    requires Init(s0) && ValidRun(s0, steps)
    ensures var s := Final(s0, steps);
      && KeysUnique(s)
      && forall g :: Known(s, g) ==> S.WellFormed(RowOf(s, g)) && Dated(RowOf(s, g), s.retention, s.now)
  {
    InitHolds(s0);
    RunKeeps(s0, steps);
    var s := Final(s0, steps);
    forall g | Known(s, g) ensures S.WellFormed(RowOf(s, g)) && Dated(RowOf(s, g), s.retention, s.now) {
      assert RowOk(s, g);
    }
  }

  // ---------- usage ----------

  /** The usage on record is the provider's own count of the generation's one call, whoever recorded it. */
  lemma UsageIsTheCalls(s0: State, steps: seq<Step>, g: GenId, c: CallId)
    requires Init(s0) && ValidRun(s0, steps)
    requires var s := Final(s0, steps); c in s.ops && s.ops[c].gen == g
    ensures var s := Final(s0, steps);
      && (g in s.store.usage ==> Ended(s, c) && s.ops[c].call.usage == Some(s.store.usage[g].usage))
      && (Known(s, g) && FromAnswer(RowOf(s, g).status, RowOf(s, g).error, RowOf(s, g).callId) ==>
            && Ended(s, c)
            && (s.ops[c].call.usage.Some? ==> g in s.store.usage && s.store.usage[g].usage == s.ops[c].call.usage.value)
            && (g in s.store.rows && s.ops[c].call.response.Some? ==>
                  g in s.store.attempts && s.store.attempts[g] == s.ops[c].call.response.value))
  {
    InitHolds(s0);
    RunKeeps(s0, steps);
    var s := Final(s0, steps);
    hide Inv;
    if g in s.store.usage { UsageEnded(s, g, c); }
    if Known(s, g) && FromAnswer(RowOf(s, g).status, RowOf(s, g).error, RowOf(s, g).callId) {
      RowStanding(s, g);
      OneCallHere(s, c, RowOf(s, g).callId.value);
    }
  }

  lemma UsageEnded(s: State, g: GenId, c: CallId)
    requires Inv(s) && g in s.store.usage && CallFor(s, g, c)
    ensures Ended(s, c) && s.ops[c].call.usage == Some(s.store.usage[g].usage)
  {
    hide Inv;
    UsageOfOrphan(s, g);
    var d :| CallFor(s, g, d) && Ended(s, d) && s.ops[d].call.usage == Some(s.store.usage[g].usage);
    OneCallHere(s, c, d);
  }

  // ---------- totals ----------

  const NO_USAGE: Usage := Usage(0, 0, 0, 0, 0)

  function Plus(u: Usage, v: Usage): Usage {
    Usage(u.input + v.input, u.cachedInput + v.cachedInput, u.cacheWrite + v.cacheWrite,
          u.output + v.output, u.reasoning + v.reasoning)
  }

  ghost function RecordedTotal(s: State, ids: seq<GenId>): Usage
    requires forall i :: 0 <= i < |ids| ==> ids[i] in s.store.usage
  {
    if ids == [] then NO_USAGE else Plus(s.store.usage[ids[0]].usage, RecordedTotal(s, ids[1..]))
  }

  ghost predicate Metered(s: State, c: CallId) {
    Ended(s, c) && s.ops[c].call.usage.Some?
  }

  ghost function CalledTotal(s: State, calls: seq<CallId>): Usage
    requires forall i :: 0 <= i < |calls| ==> Metered(s, calls[i])
  {
    if calls == [] then NO_USAGE
    else assert Metered(s, calls[0]); Plus(s.ops[calls[0]].call.usage.value, CalledTotal(s, calls[1..]))
  }

  predicate Distinct(xs: seq<nat>) {
    forall i, j :: 0 <= i < j < |xs| ==> xs[i] != xs[j]
  }

  /** Usage is conserved: any set of Usage Records sums, in each of its counts, to what as many different calls consumed,
    * each record being its own call's. */
  lemma {:induction false} TotalsMatch(s: State, ids: seq<GenId>) returns (calls: seq<CallId>)
    requires Inv(s) && Distinct(ids) && forall i :: 0 <= i < |ids| ==> ids[i] in s.store.usage
    ensures |calls| == |ids| && Distinct(calls)
    ensures forall i :: 0 <= i < |ids| ==>
      && Metered(s, calls[i]) && s.ops[calls[i]].gen == ids[i]
      && s.ops[calls[i]].call.usage == Some(s.store.usage[ids[i]].usage)
    ensures RecordedTotal(s, ids) == CalledTotal(s, calls)
  {
    hide Inv;
    if ids == [] {
      calls := [];
    } else {
      UsageOfOrphan(s, ids[0]);
      var c :| CallFor(s, ids[0], c) && Ended(s, c) && s.ops[c].call.usage == Some(s.store.usage[ids[0]].usage);
      var rest := TotalsMatch(s, ids[1..]);
      calls := [c] + rest;
      assert calls[1..] == rest;
      forall i | 0 <= i < |ids|
        ensures Metered(s, calls[i]) && s.ops[calls[i]].gen == ids[i]
        ensures s.ops[calls[i]].call.usage == Some(s.store.usage[ids[i]].usage)
      {
        assert i > 0 ==> calls[i] == rest[i - 1] && ids[i] == ids[1..][i - 1];
      }
    }
  }
}
