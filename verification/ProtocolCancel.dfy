/** No cancel is lost: an owner's cancel and a start that race for one call end with it stopped or settled. */
module ProtocolCancel {
  import opened Types
  import opened Check
  import opened Connector
  import opened Counting
  import opened Protocol
  import opened ProtocolInvariant
  import opened ProtocolSafety
  import opened ProtocolSteps
  import opened ProtocolHistory
  import S = Store

  /** The row that obliges a process to stop its call: one it found carrying a call and asked to be cancelled. */
  function Duty(q: Process): Option<Generation> {
    if q.marked.Some? && q.marked.value.callId.Some? && q.marked.value.Unsettled() then q.marked
    else if q.confirmed.Some? && q.confirmed.value.cancelRequestedAt.Some? then q.confirmed
    else None
  }

  /** The row a process learnt of is an earlier version of the row, for its own generation. */
  ghost predicate Learnt(s: State, g: GenId, r: Generation) {
    r.id == g && Known(s, g) && S.Precedes(r, RowOf(s, g))
  }

  ghost predicate Settled(s: State, g: GenId) {
    Known(s, g) && !RowOf(s, g).Unsettled()
  }

  /** The process has yet to ask for the stop, with the row that obliges it in hand. */
  predicate OnDuty(phase: Phase, r: Generation) {
    (phase.Recorded? || phase.Checking? || phase.Observing? || phase.Committing?) && phase.read.row == r
  }

  ghost predicate DutyOk(s: State, q: Process, r: Generation) {
    && r.callId.Some? && r.cancelRequestedAt.Some? && Learnt(s, q.gen, r)
    && (q.phase.Gone? || OnDuty(q.phase, r) || r.callId.value in s.stops || Settled(s, q.gen))
  }

  ghost predicate CancelOk(s: State, q: Process) {
    && (BeforeSend(q.phase) || InStart(q.phase) || q.phase.Cancelling? ==> q.confirmed.None? && q.marked.None?)
    && (q.phase.Recorded? ==> q.confirmed == Some(q.phase.read.row))
    && (q.confirmed.Some? ==>
          q.role == Submitter && q.confirmed.value.callId.Some? && Learnt(s, q.gen, q.confirmed.value))
    && (q.marked.Some? ==>
          q.role == Canceller && q.marked.value.cancelRequestedAt.Some? && Learnt(s, q.gen, q.marked.value))
    && (Duty(q).Some? ==> DutyOk(s, q, Duty(q).value))
    && (q.role == Canceller && q.marked.None? ==>
          q.phase.Cancelling? || q.phase.Gone? || (q.phase.Returned? && Settled(s, q.gen)))
  }

  /** Of a mark and a record, the later one sees the earlier. */
  ghost predicate OneSeesTheOther(s: State) {
    forall p, q | p in s.procs && q in s.procs && s.procs[p].gen == s.procs[q].gen ::
      s.procs[p].marked.Some? && s.procs[q].confirmed.Some? ==>
        s.procs[p].marked.value.callId.Some? || s.procs[q].confirmed.value.cancelRequestedAt.Some?
  }

  ghost predicate CancelInv(s: State) {
    (forall p :: p in s.procs ==> CancelOk(s, s.procs[p])) && OneSeesTheOther(s)
  }

  lemma FrameCancel(s: State, t: State, q: Process)
    requires CancelOk(s, q) && RowsGrow(s, t) && s.stops <= t.stops
    ensures CancelOk(t, q)
  {
    if q.confirmed.Some? { S.PrecedesTransitive(q.confirmed.value, RowOf(s, q.gen), RowOf(t, q.gen)); }
    if q.marked.Some? { S.PrecedesTransitive(q.marked.value, RowOf(s, q.gen), RowOf(t, q.gen)); }
  }

  /** One process moved: the others stand, and what each remembers is what it did. */
  lemma OneCancelStep(s: State, t: State, p: nat)
    requires CancelInv(s) && OneMoves(s, t, p) && RowsGrow(s, t) && CancelOk(t, t.procs[p])
    requires OneSeesTheOther(t)
    ensures CancelInv(t)
  {
    forall q | q in t.procs ensures CancelOk(t, t.procs[q]) {
      if q != p { FrameCancel(s, t, s.procs[q]); }
    }
  }

  lemma SameMemory(s: State, t: State, p: nat)
    requires OneSeesTheOther(s) && OneMoves(s, t, p)
    requires t.procs[p].marked == s.procs[p].marked && t.procs[p].confirmed == s.procs[p].confirmed
    ensures OneSeesTheOther(t)
  {
  }

  // ---------- the steps ----------

  /** A process that only begins remembers nothing yet. */
  predicate Begins(q: Process) {
    && q.confirmed.None? && q.marked.None? && !q.phase.Recorded?
    && (q.role == Canceller ==> q.phase.Cancelling?)
  }

  lemma MoveBegins(s: State, move: Move)
    requires MoveEnabled(s, move)
    ensures var t := Surround(s, move);
      && (forall q :: q in s.procs ==> q in t.procs && t.procs[q] == s.procs[q])
      && (forall q :: q in t.procs && q !in s.procs ==> Begins(t.procs[q]))
  {
  }

  lemma MoveCancels(s: State, move: Move)
    requires Inv(s) && CancelInv(s) && MoveEnabled(s, move)
    ensures CancelInv(Surround(s, move))
  {
    hide Inv;
    TablesStanding(s);
    MoveGrows(s, move);
    MoveBegins(s, move);
    NewcomersCancel(s, Surround(s, move));
  }

  lemma NewcomersCancel(s: State, t: State)
    requires CancelInv(s) && RowsGrow(s, t) && s.stops <= t.stops
    requires forall q :: q in s.procs ==> q in t.procs && t.procs[q] == s.procs[q]
    requires forall q :: q in t.procs && q !in s.procs ==> Begins(t.procs[q])
    ensures CancelInv(t)
  {
    forall q | q in t.procs ensures CancelOk(t, t.procs[q]) {
      if q in s.procs { FrameCancel(s, t, s.procs[q]); }
    }
  }

  lemma LeaveCancels(s: State, p: nat)
    requires CancelInv(s) && In(s, p)
    ensures CancelInv(Unlock(At(s, p, Gone), p))
  {
    var t := Unlock(At(s, p, Gone), p);
    assert CancelOk(s, s.procs[p]);
    SameMemory(s, t, p);
    OneCancelStep(s, t, p);
  }

  lemma SubmitCancels(s: State, p: nat, action: SubmitAction)
    requires Inv(s) && CancelInv(s) && SubmitEnabled(s, p, action)
    ensures CancelInv(ActSubmit(s, p, action))
  {
    var t := ActSubmit(s, p, action);
    assert CancelOk(s, s.procs[p]);
    hide Inv;
    Standing(s, p);
    SubmitActionGrows(s, p, action);
    SubmitActionMoves(s, p, action);
    SubmitForgets(s, p, action);
    SameMemory(s, t, p);
    OneCancelStep(s, t, p);
  }

  lemma SubmitForgets(s: State, p: nat, action: SubmitAction)
    requires SubmitEnabled(s, p, action)
    ensures var q, r := s.procs[p], ActSubmit(s, p, action).procs[p];
      q.marked == r.marked && q.confirmed == r.confirmed && !r.phase.Recorded? && !r.phase.Cancelling?
  {
    hide S.NewRow, S.HoldsKey, Live, ClassifyStart, StartFailurePlan, FailPlan;
    match action
    case Insert(txAt) =>
    case Admit(usageReached) => hide ApplyInsert;
    case _ => hide ApplyInsert, ApplyAdmit;
  }

  /** A confirmed record remembers the row as it stands, every mark before it included. */
  lemma ConfirmCancels(s: State, t: State, p: nat, row: Generation)
    requires CancelInv(s) && OneMoves(s, t, p) && RowsGrow(s, t)
    requires s.procs[p].role == Submitter && s.procs[p].confirmed.None? && s.procs[p].marked.None?
    requires t.procs[p] == s.procs[p].(confirmed := Some(row), phase := Recorded(Snapshot(row, s.now)))
    requires row.id == s.procs[p].gen && row.callId.Some? && Known(t, row.id) && row == RowOf(t, row.id)
    ensures CancelInv(t)
  {
    forall q | q in t.procs && t.procs[q].gen == t.procs[p].gen && t.procs[q].marked.Some?
      ensures row.cancelRequestedAt.Some?
    {
      assert CancelOk(s, s.procs[q]);
      assert Learnt(s, s.procs[q].gen, s.procs[q].marked.value);
      S.PrecedesTransitive(s.procs[q].marked.value, RowOf(s, row.id), row);
    }
    OneCancelStep(s, t, p);
  }

  lemma TablesStanding(s: State)
    requires Inv(s)
    ensures TablesOk(s)
  {
  }

  lemma HolderStanding(s: State, p: nat)
    requires Inv(s) && In(s, p) && (PhaseOf(s, p).Writing? || PhaseOf(s, p).ReadingBack?)
    ensures s.procs[p].role == Submitter && PhaseOf(s, p).row.id == s.procs[p].gen
    ensures s.procs[p].gen in s.store.rows ==> s.store.rows[s.procs[p].gen].id == s.procs[p].gen
  {
    hide Inv;
    Standing(s, p);
    if s.procs[p].gen in s.store.rows { RowStanding(s, s.procs[p].gen); }
  }

  lemma WriteCancels(s: State, p: nat)
    requires Inv(s) && CancelInv(s) && In(s, p) && PhaseOf(s, p).Writing?
    ensures CancelInv(ApplyWrite(s, p))
  {
    hide Inv;
    var t := ApplyWrite(s, p);
    assert CancelOk(s, s.procs[p]);
    TablesStanding(s);
    HolderStanding(s, p);
    RecordGrows(s, PhaseOf(s, p).row.id, PhaseOf(s, p).call);
    if t.procs[p].phase.Recorded? {
      ConfirmCancels(s, t, p, t.procs[p].phase.read.row);
    } else {
      SameMemory(s, t, p);
      OneCancelStep(s, t, p);
    }
  }

  lemma ReadBackCancels(s: State, p: nat)
    requires Inv(s) && CancelInv(s) && In(s, p) && PhaseOf(s, p).ReadingBack?
    ensures CancelInv(ApplyReadBack(s, p))
  {
    hide Inv;
    var t := ApplyReadBack(s, p);
    assert CancelOk(s, s.procs[p]);
    HolderStanding(s, p);
    SameRowsGrow(s, t);
    if t.procs[p].phase.Recorded? {
      ConfirmCancels(s, t, p, t.procs[p].phase.read.row);
    } else {
      SameMemory(s, t, p);
      OneCancelStep(s, t, p);
    }
  }

  /** A start that saw the mark goes on to stop its call. */
  lemma FinishCancels(s: State, p: nat)
    requires CancelInv(s) && In(s, p) && PhaseOf(s, p).Recorded?
    ensures CancelInv(At(s, p, AfterRecord(PhaseOf(s, p).read)))
  {
    var t := At(s, p, AfterRecord(PhaseOf(s, p).read));
    assert CancelOk(s, s.procs[p]);
    SameMemory(s, t, p);
    OneCancelStep(s, t, p);
  }

  lemma RecordForgets(s: State, p: nat, action: RecordAction)
    requires RecordEnabled(s, p, action) && !action.Write? && !action.ReadBack? && !action.FinishStart?
    ensures var q, r := s.procs[p], ActRecord(s, p, action).procs[p];
      q.marked == r.marked && q.confirmed == r.confirmed && (r.phase.Gone? || (InStart(r.phase) && !BeforeSend(r.phase)))
    ensures InStart(PhaseOf(s, p))
  {
  }

  lemma RecordCancels(s: State, p: nat, action: RecordAction)
    requires Inv(s) && CancelInv(s) && RecordEnabled(s, p, action)
    ensures CancelInv(ActRecord(s, p, action))
  {
    hide Inv;
    match action
    case Write => WriteCancels(s, p);
    case ReadBack => ReadBackCancels(s, p);
    case FinishStart => FinishCancels(s, p);
    case _ =>
      var t := ActRecord(s, p, action);
      assert CancelOk(s, s.procs[p]);
      TablesStanding(s);
      RecordActionGrows(s, p, action);
      RecordActionMoves(s, p, action);
      RecordForgets(s, p, action);
      SameMemory(s, t, p);
      OneCancelStep(s, t, p);
  }

  // ---------- checks and marks ----------

  /** A step of a check that keeps its duty, or does it. */
  lemma CheckerCancels(s: State, t: State, p: nat)
    requires CancelInv(s) && OneMoves(s, t, p) && RowsGrow(s, t)
    requires t.procs[p] == s.procs[p].(phase := t.procs[p].phase)
    requires var a := t.procs[p].phase;
      !BeforeSend(a) && !InStart(a) && !a.Cancelling? && !a.Recorded?
    requires var a := s.procs[p].phase;
      a.Checking? || a.Observing? || a.Awaiting? || a.Relabelling? || a.Committing? || a.Rereading?
    requires var d := Duty(s.procs[p]);
      d.Some? && OnDuty(s.procs[p].phase, d.value) ==>
        || t.procs[p].phase.Gone? || OnDuty(t.procs[p].phase, d.value)
        || d.value.callId.value in t.stops || Settled(t, s.procs[p].gen)
    ensures CancelInv(t)
  {
    assert CancelOk(s, s.procs[p]);
    FrameCancel(s, t, s.procs[p]);
    SameMemory(s, t, p);
    OneCancelStep(s, t, p);
  }

  lemma DutyStanding(s: State, p: nat)
    requires CancelInv(s) && In(s, p) && Duty(s.procs[p]).Some?
    ensures DutyOk(s, s.procs[p], Duty(s.procs[p]).value)
  {
    assert CancelOk(s, s.procs[p]);
  }

  lemma RouteCancels(s: State, p: nat)
    requires Inv(s) && CancelInv(s) && In(s, p) && PhaseOf(s, p).Checking?
    ensures CancelInv(At(s, p, AfterRoute(PhaseOf(s, p).read)))
  {
    hide Inv, CancelInv;
    Standing(s, p);
    if Duty(s.procs[p]).Some? { DutyStanding(s, p); }
    SameRowsGrow(s, At(s, p, AfterRoute(PhaseOf(s, p).read)));
    CheckerCancels(s, At(s, p, AfterRoute(PhaseOf(s, p).read)), p);
  }

  /** A call its owner asked to stop is stopped by the very next question asked about it. */
  lemma AskCancels(s: State, p: nat, served: bool)
    requires CancelInv(s) && In(s, p) && PhaseOf(s, p).Observing? && Observable(PhaseOf(s, p).read)
    ensures CancelInv(ApplyAsk(s, p, served))
  {
    hide CancelInv, ApplyAsk;
    if Duty(s.procs[p]).Some? { DutyStanding(s, p); }
    AskMoves(s, p, served);
    SameRowsGrow(s, ApplyAsk(s, p, served));
    CheckerCancels(s, ApplyAsk(s, p, served), p);
  }

  lemma HearCancels(s: State, p: nat, reply: Reply)
    requires CancelInv(s) && In(s, p) && PhaseOf(s, p).Awaiting? && Observable(PhaseOf(s, p).read)
    ensures CancelInv(ApplyHear(s, p, reply))
  {
    hide CancelInv, ApplyHear;
    HearMoves(s, p, reply);
    SameRowsGrow(s, ApplyHear(s, p, reply));
    CheckerCancels(s, ApplyHear(s, p, reply), p);
  }

  lemma LabelCancels(s: State, p: nat)
    requires CancelInv(s) && In(s, p) && PhaseOf(s, p).Relabelling?
    ensures CancelInv(At(s, p, AfterLabel(s, s.procs[p])))
  {
    hide CancelInv;
    SameRowsGrow(s, At(s, p, AfterLabel(s, s.procs[p])));
    CheckerCancels(s, At(s, p, AfterLabel(s, s.procs[p])), p);
  }

  /** A settle that changed nothing, of a run whose call the row carries, found it settled already. */
  lemma CommitSettles(s: State, p: nat)
    requires Inv(s) && In(s, p) && PhaseOf(s, p).Committing? && PhaseOf(s, p).read.row.callId.Some?
    ensures var a := ApplyCommit(s, p, true).procs[p].phase;
      a.Gone? || a.Committing? || Settled(ApplyCommit(s, p, true), s.procs[p].gen)
    ensures var a := ApplyCommit(s, p, true).procs[p].phase;
      a.Committing? ==> PhaseOf(s, p).answered && a.read == PhaseOf(s, p).read
  {
    hide Inv;
    Standing(s, p);
    RowStanding(s, s.procs[p].gen);
  }

  lemma CommitCancels(s: State, p: nat, answers: bool)
    requires Inv(s) && CancelInv(s) && In(s, p) && PhaseOf(s, p).Committing?
    ensures CancelInv(ApplyCommit(s, p, answers))
  {
    hide Inv;
    var t := ApplyCommit(s, p, answers);
    CommitGrows(s, p, answers);
    CommitMoves(s, p, answers);
    if Duty(s.procs[p]).Some? && OnDuty(PhaseOf(s, p), Duty(s.procs[p]).value) {
      DutyStanding(s, p);
      if answers { CommitSettles(s, p); }
    }
    CommitPhase(s, p, answers);
    CheckerCancels(s, t, p);
  }

  lemma CommitPhase(s: State, p: nat, answers: bool)
    requires In(s, p) && PhaseOf(s, p).Committing?
    ensures var q := ApplyCommit(s, p, answers).procs[p];
      && q == s.procs[p].(phase := q.phase)
      && (q.phase.Returned? || q.phase.Rereading? || q.phase.Gone?
          || (q.phase.Committing? && q.phase.read == PhaseOf(s, p).read))
  {
    hide S.Commit;
  }

  lemma RereadCancels(s: State, p: nat)
    requires CancelInv(s) && In(s, p) && PhaseOf(s, p).Rereading?
    ensures CancelInv(At(s, p, if s.procs[p].gen in s.store.rows then Returned else Gone))
  {
    hide CancelInv;
    CheckerCancels(s, At(s, p, if s.procs[p].gen in s.store.rows then Returned else Gone), p);
  }

  /** A mark remembers the row as it stands, with the call of every record before it. */
  lemma MarkCancels(s: State, p: nat, answers: bool)
    requires Inv(s) && CancelInv(s) && In(s, p) && PhaseOf(s, p).Cancelling?
    ensures CancelInv(ApplyMark(s, p, answers))
  {
    hide Inv;
    var t := ApplyMark(s, p, answers);
    var g := s.procs[p].gen;
    MarkGrows(s, p, answers);
    MarkMoves(s, p, answers);
    assert CancelOk(s, s.procs[p]);
    if g in s.store.rows { RowStanding(s, g); }
    CancellerStanding(s, p);
    MarkRemembers(s, p, answers);
    forall q | q in t.procs && t.procs[q].gen == g && t.procs[q].confirmed.Some? && t.procs[p].marked.Some?
      ensures t.procs[p].marked.value.callId.Some?
    {
      assert CancelOk(s, s.procs[q]);
      assert Learnt(s, g, s.procs[q].confirmed.value);
    }
    OneCancelStep(s, t, p);
  }

  lemma CancellerStanding(s: State, p: nat)
    requires Inv(s) && In(s, p) && PhaseOf(s, p).Cancelling?
    ensures s.procs[p].role == Canceller
  {
    Standing(s, p);
  }

  lemma MarkFinds(s: State, p: nat, answers: bool)
    requires In(s, p) && PhaseOf(s, p).Cancelling? && s.procs[p].marked.None?
    ensures var g, t := s.procs[p].gen, ApplyMark(s, p, answers);
      var q, m := t.procs[p], t.procs[p].marked;
      && In(t, p) && q == s.procs[p].(phase := q.phase, marked := m)
      && (q.phase.Gone? || q.phase.Returned? || q.phase.Checking?)
      && (m.Some? ==>
            && g in s.store.rows && g in t.store.rows && m == Some(t.store.rows[g])
            && t.store.rows[g] == S.CancelledRow(s.store.rows[g], s.now, s.retention)
            && (m.value.callId.Some? && m.value.Unsettled() ==> q.phase.Checking? && q.phase.read.row == m.value))
      && (m.None? ==> q.phase.Gone? || (q.phase.Returned? && g in t.store.rows && !t.store.rows[g].Unsettled()))
  {
  }

  lemma MarkRemembers(s: State, p: nat, answers: bool)
    requires In(s, p) && PhaseOf(s, p).Cancelling? && CancelOk(s, s.procs[p]) && s.procs[p].role == Canceller
    requires s.procs[p].gen in s.store.rows ==> RowOk(s, s.procs[p].gen)
    ensures CancelOk(ApplyMark(s, p, answers), ApplyMark(s, p, answers).procs[p])
    ensures var m := ApplyMark(s, p, answers).procs[p].marked;
      m.Some? ==> s.procs[p].gen in s.store.rows && m.value.callId == s.store.rows[s.procs[p].gen].callId
  {
    hide ApplyMark;
    MarkFinds(s, p, answers);
  }

  lemma CheckCancels(s: State, p: nat, action: CheckAction)
    requires Inv(s) && CancelInv(s) && CheckEnabled(s, p, action)
    ensures CancelInv(ActCheck(s, p, action))
  {
    hide Inv;
    match action
    case RouteCheck => RouteCancels(s, p);
    case Ask(served) => AskCancels(s, p, served);
    case Hear(reply) => HearCancels(s, p, reply);
    case ReadLabel => LabelCancels(s, p);
    case CommitCheck(answers) => CommitCancels(s, p, answers);
    case Reread => RereadCancels(s, p);
    case MarkCancel(answers) => MarkCancels(s, p, answers);
  }

  lemma StepCancels(s: State, step: Step)
    requires Inv(s) && CancelInv(s) && Enabled(s, step)
    ensures CancelInv(Apply(s, step))
  {
    hide Inv;
    match step
    case Around(move) => MoveCancels(s, move);
    case Leaves(p) => LeaveCancels(s, p);
    case Submits(p, action) => SubmitCancels(s, p, action);
    case Records(p, action) => RecordCancels(s, p, action);
    case Checks(p, action) => CheckCancels(s, p, action);
  }

  lemma {:induction false} RunCancels(s: State, steps: seq<Step>)
    requires Inv(s) && CancelInv(s) && ValidRun(s, steps)
    ensures Inv(Final(s, steps)) && CancelInv(Final(s, steps))
    decreases |steps|
  {
    if steps != [] {
      StepKeeps(s, steps[0]);
      StepCancels(s, steps[0]);
      RunCancels(Apply(s, steps[0]), steps[1..]);
    }
  }

  /** The owner's cancel and the start of the generation both came back without an error, the record confirmed. */
  predicate BothReturned(s: State, canceller: nat, starter: nat) {
    && In(s, canceller) && s.procs[canceller].role == Canceller && s.procs[canceller].phase.Returned?
    && In(s, starter) && s.procs[starter].phase.Returned? && s.procs[starter].confirmed.Some?
    && s.procs[starter].gen == s.procs[canceller].gen
  }

  lemma CancelAnswered(s: State, canceller: nat, starter: nat)
    requires CancelInv(s) && BothReturned(s, canceller, starter)
    ensures var g := s.procs[starter].gen;
      && Known(s, g) && RowOf(s, g).callId.Some?
      && (!RowOf(s, g).Unsettled() || RowOf(s, g).callId.value in s.stops)
  {
    assert CancelOk(s, s.procs[canceller]);
    assert CancelOk(s, s.procs[starter]);
    if Duty(s.procs[canceller]).Some? { DutyStanding(s, canceller); }
    if Duty(s.procs[starter]).Some? { DutyStanding(s, starter); }
  }

  /** Whatever the interleaving, once both came back, the generation is settled or the provider was asked to cancel
    * exactly its call. */
  lemma NoCancelIsLost(s0: State, steps: seq<Step>, canceller: nat, starter: nat)
    requires Init(s0) && ValidRun(s0, steps) && BothReturned(Final(s0, steps), canceller, starter)
    ensures var s := Final(s0, steps);
      var g := s.procs[starter].gen;
      && Known(s, g) && RowOf(s, g).callId.Some?
      && (!RowOf(s, g).Unsettled() || RowOf(s, g).callId.value in s.stops)
  {
    hide CancelInv;
    InitHolds(s0);
    InitCancels(s0);
    RunCancels(s0, steps);
    CancelAnswered(Final(s0, steps), canceller, starter);
  }

  lemma InitCancels(s: State)
    requires Init(s)
    ensures CancelInv(s)
  {
  }
}
