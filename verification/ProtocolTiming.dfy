/** When nothing outlasts its timeout by more than a slack, nothing settles a start whose call id may still be written. */
module ProtocolTiming {
  import opened Types
  import opened Check
  import opened Connector
  import opened Counting
  import opened Protocol
  import opened ProtocolInvariant
  import opened ProtocolSafety
  import opened ProtocolSteps
  import opened ProtocolHistory
  import S = Store

  // ---------- timely runs ----------

  /** The most slack that the three minutes a check waits leave to the writes of a call id. */
  const SLACK_CEILING: Time :=
    (START_OUTCOME_UNKNOWN_AFTER - RECORD_PATIENCE - PERSISTENCE_TIMEOUT - STATEMENT_TIMEOUT) / 2

  predicate Tolerable(slack: Time) {
    0 <= slack <= SLACK_CEILING
  }

  /** How long a start may take, once begun. */
  function StartTimeout(streamed: bool): Time {
    if streamed then STREAM_START_TIMEOUT else START_TIMEOUT
  }

  /** The age of its intent at which a start began. */
  function BegunAt(a: Phase): Time
    requires a.Starting?
  {
    a.until - StartTimeout(a.row.key.streamed) - a.intentAt
  }

  /** The instant by which a process has left its phase, when it keeps to its timeouts. */
  function Deadline(a: Phase): Option<Time> {
    match a
    case Starting(_, _, _, until) => Some(until)
    case Writing(_, _, _, _, _, until) => Some(until)
    case Pausing(_, _, _, _, wake) => Some(wake)
    case _ => None
  }

  /** Time may advance to `t` while no process outlasts a timeout, nor the database a statement, by more than the slack:
    * a timer fires late, a process is held up, a statement reaches the database late. */
  ghost predicate MayAdvance(s: State, t: Time) {
    && (forall p :: p in s.procs && Deadline(s.procs[p].phase).Some? ==> t <= Deadline(s.procs[p].phase).value + s.slack)
    && (forall w :: w in s.late ==> t <= w.until + s.slack)
  }

  ghost predicate TimelyStep(s: State, step: Step) {
    step.Around? && step.move.Tick? ==> MayAdvance(s, step.move.t)
  }

  ghost predicate TimelyRun(s: State, steps: seq<Step>)
    requires ValidRun(s, steps)
    decreases |steps|
  {
    steps == [] || (TimelyStep(s, steps[0]) && TimelyRun(Apply(s, steps[0]), steps[1..]))
  }

  // ---------- what may still write a call id ----------

  /** The process may yet write the call id of its start. */
  predicate MayWrite(a: Phase, now: Time) {
    || (a.Ready? && now - a.intentAt < START_TIMEOUT)
    || a.Starting? || a.Writing? || a.Pausing?
  }

  ghost predicate MayRecord(s: State, g: GenId) {
    || (exists p :: p in s.procs && s.procs[p].role == Submitter && s.procs[p].gen == g && MayWrite(s.procs[p].phase, s.now))
    || exists w :: w in s.late && w.gen == g
  }

  // ---------- the timed invariant ----------

  ghost predicate ClockOk(a: Phase, now: Time, slack: Time) {
    match a
    case Starting(_, intentAt, _, until) =>
      0 <= BegunAt(a) < START_TIMEOUT && intentAt + BegunAt(a) <= now <= until + slack
    case Writing(_, intentAt, _, _, pause, until) =>
      0 <= pause && now <= until + slack && until < intentAt + RECORD_PATIENCE + PERSISTENCE_TIMEOUT + slack
    case Pausing(_, intentAt, _, pause, wake) => 0 <= pause && now <= wake + slack && wake < intentAt + RECORD_PATIENCE
    case _ => true
  }

  /** A late write ends well before a check may resolve the start. */
  ghost predicate LateOk(s: State, w: LateWrite) {
    && Known(s, w.gen) && RowOf(s, w.gen).startRequestedAt.Some?
    && s.now <= w.until + s.slack
    && w.until < RowOf(s, w.gen).startRequestedAt.value
                 + RECORD_PATIENCE + PERSISTENCE_TIMEOUT + STATEMENT_TIMEOUT + s.slack
  }

  ghost predicate NoLate(s: State, g: GenId) {
    forall w :: w in s.late ==> w.gen != g
  }

  ghost predicate ProcTimed(s: State, q: Process) {
    && ClockOk(q.phase, s.now, s.slack)
    && (q.role == Submitter && (BeforeSend(q.phase) || q.phase.Starting?) ==> NoLate(s, q.gen))
    && (q.phase.Committing? && q.phase.read.row.callId.None? ==> !MayRecord(s, q.gen))
  }

  ghost predicate TimedInv(s: State) {
    && Tolerable(s.slack)
    && (forall p :: p in s.procs ==> ProcTimed(s, s.procs[p]))
    && (forall w :: w in s.late ==> LateOk(s, w))
    && (forall g :: Known(s, g) && !RowOf(s, g).Unsettled() && RowOf(s, g).callId.None? ==> !MayRecord(s, g))
  }

  /** Every write of a call id is over strictly before the start may be resolved. */
  lemma RecordWindow(s: State, g: GenId)
    requires Inv(s) && TimedInv(s) && Known(s, g) && MayRecord(s, g)
    ensures RowOf(s, g).startRequestedAt.Some?
    ensures s.now < RowOf(s, g).startRequestedAt.value
      + RECORD_PATIENCE + PERSISTENCE_TIMEOUT + STATEMENT_TIMEOUT + 2 * s.slack
    ensures s.now < RowOf(s, g).startRequestedAt.value + START_OUTCOME_UNKNOWN_AFTER
  {
    hide Inv;
    if exists w :: w in s.late && w.gen == g {
      var w :| w in s.late && w.gen == g;
      assert LateOk(s, w);
    } else {
      var p :| p in s.procs && s.procs[p].role == Submitter && s.procs[p].gen == g && MayWrite(s.procs[p].phase, s.now);
      Standing(s, p);
      assert ProcTimed(s, s.procs[p]);
    }
  }

  // ---------- frame ----------

  /** Once nothing may write a known generation's call id, nothing ever will. */
  ghost predicate RecordsShrink(s: State, t: State) {
    forall g :: Known(s, g) && !MayRecord(s, g) ==> !MayRecord(t, g)
  }

  /** A step adds a late write only for the process that gave up on one. */
  ghost predicate LateFrom(s: State, t: State, p: nat)
    requires In(s, p)
  {
    && t.now == s.now && t.slack == s.slack
    && forall w :: w in t.late ==>
         w in s.late || (s.procs[p].role == Submitter && s.procs[p].phase.Writing? && w.gen == s.procs[p].gen)
  }

  /** The process's next phase may write a call id only if the one before could, or its row is not there yet. */
  ghost predicate StillMayWrite(s: State, t: State, p: nat)
    requires In(s, p) && In(t, p)
  {
    s.procs[p].role == Submitter && MayWrite(t.procs[p].phase, s.now) ==>
      MayWrite(s.procs[p].phase, s.now) || !Known(s, s.procs[p].gen)
  }

  lemma ShrinkOne(s: State, t: State, p: nat)
    requires OneMoves(s, t, p) && LateFrom(s, t, p) && StillMayWrite(s, t, p)
    ensures RecordsShrink(s, t)
  {
  }

  lemma FrameTimed(s: State, t: State, p: nat)
    requires Inv(s) && TimedInv(s) && OneMoves(s, t, p) && LateFrom(s, t, p) && RecordsShrink(s, t)
    ensures forall q :: q in t.procs && q != p ==> ProcTimed(t, t.procs[q])
  {
    forall q | q in t.procs && q != p ensures ProcTimed(t, t.procs[q]) {
      assert ProcTimed(s, s.procs[q]);
      assert PhaseOk(s, q);
    }
  }

  lemma FrameLate(s: State, t: State, w: LateWrite)
    requires LateOk(s, w) && RowsGrow(s, t) && t.slack == s.slack && t.now <= w.until + s.slack
    ensures LateOk(t, w)
  {
  }

  ghost predicate SettledIdle(s: State) {
    forall g :: Known(s, g) && !RowOf(s, g).Unsettled() && RowOf(s, g).callId.None? ==> !MayRecord(s, g)
  }

  lemma OneTimedStep(s: State, t: State, p: nat)
    requires Inv(s) && TimedInv(s) && OneMoves(s, t, p) && LateFrom(s, t, p) && StillMayWrite(s, t, p)
    requires RowsGrow(s, t) && ProcTimed(t, t.procs[p]) && SettledIdle(t)
    requires forall w :: w in t.late && w !in s.late ==> LateOk(t, w)
    ensures TimedInv(t)
  {
    ShrinkOne(s, t, p);
    FrameTimed(s, t, p);
    forall w | w in t.late ensures LateOk(t, w) { if w in s.late { FrameLate(s, t, w); } }
  }

  /** As above, for a step that leaves the rows alone. */
  lemma LocalTimedStep(s: State, t: State, p: nat)
    requires Inv(s) && TimedInv(s) && OneMoves(s, t, p) && LateFrom(s, t, p) && StillMayWrite(s, t, p)
    requires t.store.rows == s.store.rows && t.purged == s.purged && ProcTimed(t, t.procs[p])
    requires forall w :: w in t.late && w !in s.late ==> LateOk(t, w)
    ensures TimedInv(t)
  {
    ShrinkOne(s, t, p);
    SameRowsGrow(s, t);
    OneTimedStep(s, t, p);
  }

  /** A process that goes where nothing is timed, and settles nothing without a call. */
  lemma RestTimed(s: State, t: State, p: nat)
    requires Inv(s) && TimedInv(s) && OneMoves(s, t, p) && Rests(s, t, p)
    requires var a := t.procs[p].phase;
      && Deadline(a).None? && !MayWrite(a, s.now) && !BeforeSend(a) && (a.Committing? ==> a.read.row.callId.Some?)
    ensures TimedInv(t)
  {
    hide Inv, TimedInv;
    LocalTimedStep(s, t, p);
  }

  lemma TimedStanding(s: State, p: nat)
    requires TimedInv(s) && In(s, p)
    ensures ProcTimed(s, s.procs[p]) && Tolerable(s.slack)
  {
  }

  // ---------- a submit, up to its call ----------

  /** A start that leaves before it wrote anything leaves nothing behind that may. */
  lemma NothingToWrite(s: State, t: State, p: nat)
    requires Inv(s) && TimedInv(s) && OneMoves(s, t, p) && LateFrom(s, t, p) && t.late == s.late
    requires s.procs[p].role == Submitter && (BeforeSend(s.procs[p].phase) || s.procs[p].phase.Starting?)
    requires !MayWrite(t.procs[p].phase, s.now)
    ensures !MayRecord(t, s.procs[p].gen)
  {
    assert ProcTimed(s, s.procs[p]);
  }

  lemma StarterStanding(s: State, p: nat)
    requires Inv(s) && In(s, p) && (PhaseOf(s, p).Ready? || PhaseOf(s, p).Starting?)
    ensures s.procs[p].role == Submitter && PhaseOf(s, p).row.callId.None? && PhaseOf(s, p).intentAt <= s.now
  {
    Standing(s, p);
  }

  lemma BeginStartTimed(s: State, p: nat, served: bool)
    requires Inv(s) && TimedInv(s) && In(s, p) && PhaseOf(s, p).Ready?
    ensures TimedInv(At(s, p, AfterReady(s, PhaseOf(s, p), served)))
  {
    hide Inv;
    var t := At(s, p, AfterReady(s, PhaseOf(s, p), served));
    assert ProcTimed(s, s.procs[p]);
    StarterStanding(s, p);
    if t.procs[p].phase.Committing? { NothingToWrite(s, t, p); }
    LocalTimedStep(s, t, p);
  }

  lemma StartFailsTimed(s: State, p: nat, error: StartError, body: Option<Response>)
    requires Inv(s) && TimedInv(s) && In(s, p) && PhaseOf(s, p).Starting?
    ensures TimedInv(At(s, p, AfterStartError(s, PhaseOf(s, p), error, body)))
  {
    hide Inv;
    var t := At(s, p, AfterStartError(s, PhaseOf(s, p), error, body));
    StarterStanding(s, p);
    NothingToWrite(s, t, p);
    LocalTimedStep(s, t, p);
  }

  lemma StartNamesTimed(s: State, p: nat, c: CallId)
    requires Inv(s) && TimedInv(s) && In(s, p) && PhaseOf(s, p).Starting?
    ensures TimedInv(At(s, p, FirstWrite(s, PhaseOf(s, p), c)))
  {
    hide Inv;
    var t := At(s, p, FirstWrite(s, PhaseOf(s, p), c));
    assert ProcTimed(s, s.procs[p]);
    LocalTimedStep(s, t, p);
  }

  lemma SendTimed(s: State, p: nat)
    requires Inv(s) && TimedInv(s) && In(s, p) && PhaseOf(s, p).Starting? && !PhaseOf(s, p).sent
    ensures TimedInv(ApplySend(s, p))
  {
    hide Inv;
    assert ProcTimed(s, s.procs[p]);
    LocalTimedStep(s, ApplySend(s, p), p);
  }

  lemma InsertTimed(s: State, p: nat, txAt: Time)
    requires Inv(s) && TimedInv(s) && In(s, p) && PhaseOf(s, p).Submitting?
    ensures TimedInv(ApplyInsert(s, p, txAt))
  {
    hide Inv, TimedInv;
    TimedStanding(s, p);
    InsertRests(s, p, txAt);
    hide ApplyInsert;
    LocalTimedStep(s, ApplyInsert(s, p, txAt), p);
  }

  lemma AdmitTimed(s: State, p: nat, usageReached: bool)
    requires Inv(s) && TimedInv(s) && In(s, p) && PhaseOf(s, p).Admitting?
    ensures TimedInv(ApplyAdmit(s, p, usageReached))
  {
    hide Inv, TimedInv;
    TimedStanding(s, p);
    LocalTimedStep(s, ApplyAdmit(s, p, usageReached), p);
  }

  lemma CommitSubmitTimed(s: State, p: nat)
    requires Inv(s) && TimedInv(s) && In(s, p) && PhaseOf(s, p).Admitting?
    ensures TimedInv(ApplyCommitSubmit(s, p))
  {
    hide Inv;
    var t := ApplyCommitSubmit(s, p);
    assert ProcTimed(s, s.procs[p]);
    Standing(s, p);
    SubmitGrows(s, p);
    ShrinkOne(s, t, p);
    OneTimedStep(s, t, p);
  }

  lemma SubmitTimed(s: State, p: nat, action: SubmitAction)
    requires Inv(s) && TimedInv(s) && SubmitEnabled(s, p, action)
    ensures TimedInv(ActSubmit(s, p, action))
  {
    hide Inv, TimedInv;
    match action
    case Insert(txAt) => InsertTimed(s, p, txAt);
    case Admit(usageReached) => AdmitTimed(s, p, usageReached);
    case CommitSubmit => CommitSubmitTimed(s, p);
    case BeginStart(served) => BeginStartTimed(s, p, served);
    case Send => SendTimed(s, p);
    case StartFails(error, body) => StartFailsTimed(s, p, error, body);
    case StartNames => StartNamesTimed(s, p, s.requests[p].fate.call);
  }

  // ---------- the record of the call ----------

  /** A step that changes one row, which carries a call then or was settled before, keeps the settled rows idle. */
  lemma IdleKept(s: State, t: State, p: nat, g: GenId)
    requires TimedInv(s) && RecordsShrink(s, t) && RowsGrow(s, t)
    requires forall h :: Known(t, h) && h != g ==> Known(s, h) && RowOf(t, h) == RowOf(s, h)
    requires Known(t, g) && !RowOf(t, g).Unsettled() && RowOf(t, g).callId.None? ==>
      !MayRecord(t, g) || (Known(s, g) && RowOf(t, g) == RowOf(s, g))
    ensures SettledIdle(t)
  {
  }

  lemma WriteTimed(s: State, p: nat)
    requires Inv(s) && TimedInv(s) && In(s, p) && PhaseOf(s, p).Writing?
    ensures TimedInv(ApplyWrite(s, p))
  {
    hide Inv, TimedInv;
    var t := ApplyWrite(s, p);
    TablesThere(s);
    RecordGrows(s, PhaseOf(s, p).row.id, PhaseOf(s, p).call);
    WriteMoves(s, p);
    WriteLeaves(s, p);
    WriteRows(s, p);
    hide ApplyWrite;
    WriteIdles(s, t, p);
  }

  lemma WriteIdles(s: State, t: State, p: nat)
    requires Inv(s) && TimedInv(s) && OneMoves(s, t, p) && Rests(s, t.(store := s.store), p) && RowsGrow(s, t)
    requires var a := t.procs[p].phase;
      Deadline(a).None? && !MayWrite(a, s.now) && !BeforeSend(a) && !a.Committing?
    requires t.store.rows == s.store.rows
      || exists g :: g in s.store.rows && g in t.store.rows && t.store.rows == s.store.rows[g := t.store.rows[g]]
           && t.store.rows[g].callId.Some?
    ensures TimedInv(t)
  {
    hide Inv, TimedInv;
    ShrinkOne(s, t, p);
    if t.store.rows == s.store.rows {
      LocalTimedStep(s, t, p);
    } else {
      var g :| g in s.store.rows && g in t.store.rows && t.store.rows == s.store.rows[g := t.store.rows[g]]
        && t.store.rows[g].callId.Some?;
      NotPurged(s, g);
      IdleKept(s, t, p, g);
      OneTimedStep(s, t, p);
    }
  }

  lemma TablesThere(s: State)
    requires Inv(s)
    ensures TablesOk(s)
  {
  }

  lemma LoseWriteTimed(s: State, p: nat)
    requires Inv(s) && TimedInv(s) && In(s, p) && PhaseOf(s, p).Writing?
    ensures TimedInv(ApplyLoseWrite(s, p))
  {
    hide Inv, TimedInv;
    TimedStanding(s, p);
    Standing(s, p);
    LocalTimedStep(s, ApplyLoseWrite(s, p), p);
  }

  lemma WakeTimed(s: State, p: nat)
    requires Inv(s) && TimedInv(s) && In(s, p) && PhaseOf(s, p).Pausing? && PhaseOf(s, p).wake <= s.now
    ensures TimedInv(At(s, p, Awake(s, PhaseOf(s, p))))
  {
    hide Inv, TimedInv;
    TimedStanding(s, p);
    LocalTimedStep(s, At(s, p, Awake(s, PhaseOf(s, p))), p);
  }

  lemma ReadBackTimed(s: State, p: nat)
    requires Inv(s) && TimedInv(s) && In(s, p) && PhaseOf(s, p).ReadingBack?
    ensures TimedInv(ApplyReadBack(s, p))
  {
    hide Inv, TimedInv, ApplyReadBack;
    ReadBackMoves(s, p);
    RestTimed(s, ApplyReadBack(s, p), p);
  }

  lemma MeterTimed(s: State, p: nat)
    requires Inv(s) && TimedInv(s) && In(s, p) && PhaseOf(s, p).MeteringOrphan?
    ensures TimedInv(ApplyMeter(s, p))
  {
    hide Inv, TimedInv;
    RestTimed(s, ApplyMeter(s, p), p);
  }

  lemma RecordTimed(s: State, p: nat, action: RecordAction)
    requires Inv(s) && TimedInv(s) && RecordEnabled(s, p, action)
    ensures TimedInv(ActRecord(s, p, action))
  {
    hide Inv, TimedInv;
    match action
    case Write => WriteTimed(s, p);
    case LoseWrite => LoseWriteTimed(s, p);
    case Wake => WakeTimed(s, p);
    case ReadBack => ReadBackTimed(s, p);
    case StopOrphan => RestTimed(s, ApplyStopOrphan(s, p), p);
    case OrphanAnswers(reply) => RestTimed(s, At(s, p, AfterOrphan(PhaseOf(s, p), reply)), p);
    case MeterOrphan => MeterTimed(s, p);
    case FinishStart => RestTimed(s, At(s, p, AfterRecord(PhaseOf(s, p).read)), p);
  }

  // ---------- checks and cancels ----------

  /** A check resolves a start only at an age no write of its call id reaches. */
  lemma RouteTimed(s: State, p: nat)
    requires Inv(s) && TimedInv(s) && In(s, p) && PhaseOf(s, p).Checking?
    ensures TimedInv(At(s, p, AfterRoute(PhaseOf(s, p).read)))
  {
    hide Inv, TimedInv;
    var t := At(s, p, AfterRoute(PhaseOf(s, p).read));
    var g := s.procs[p].gen;
    Standing(s, p);
    if t.procs[p].phase.Committing? {
      if MayRecord(s, g) { RecordWindow(s, g); }
      ShrinkOne(s, t, p);
    }
    LocalTimedStep(s, t, p);
  }

  lemma AskTimed(s: State, p: nat, served: bool)
    requires Inv(s) && TimedInv(s) && In(s, p) && PhaseOf(s, p).Observing? && Observable(PhaseOf(s, p).read)
    ensures TimedInv(ApplyAsk(s, p, served))
  {
    hide Inv, TimedInv, ApplyAsk;
    AskMoves(s, p, served);
    RestTimed(s, ApplyAsk(s, p, served), p);
  }

  lemma HearTimed(s: State, p: nat, reply: Reply)
    requires Inv(s) && TimedInv(s) && In(s, p) && PhaseOf(s, p).Awaiting? && Observable(PhaseOf(s, p).read)
    ensures TimedInv(ApplyHear(s, p, reply))
  {
    hide Inv, TimedInv, ApplyHear;
    HearMoves(s, p, reply);
    RestTimed(s, ApplyHear(s, p, reply), p);
  }

  lemma LabelTimed(s: State, p: nat)
    requires Inv(s) && TimedInv(s) && In(s, p) && PhaseOf(s, p).Relabelling?
    ensures TimedInv(At(s, p, AfterLabel(s, s.procs[p])))
  {
    hide Inv, TimedInv;
    Standing(s, p);
    RestTimed(s, At(s, p, AfterLabel(s, s.procs[p])), p);
  }

  lemma CommitTimed(s: State, p: nat, answers: bool)
    requires Inv(s) && TimedInv(s) && In(s, p) && PhaseOf(s, p).Committing?
    ensures TimedInv(ApplyCommit(s, p, answers))
  {
    hide Inv, TimedInv;
    var t := ApplyCommit(s, p, answers);
    TimedStanding(s, p);
    Standing(s, p);
    CommitMoves(s, p, answers);
    CommitGrows(s, p, answers);
    CommitLeaves(s, p, answers);
    ShrinkOne(s, t, p);
    IdleKept(s, t, p, PhaseOf(s, p).read.row.id);
    OneTimedStep(s, t, p);
  }

  lemma MarkTimed(s: State, p: nat, answers: bool)
    requires Inv(s) && TimedInv(s) && In(s, p) && PhaseOf(s, p).Cancelling?
    ensures TimedInv(ApplyMark(s, p, answers))
  {
    hide Inv, TimedInv;
    var t := ApplyMark(s, p, answers);
    var g := s.procs[p].gen;
    MarkMoves(s, p, answers);
    MarkGrows(s, p, answers);
    MarkLeaves(s, p, answers);
    MarkRows(s, p, answers);
    hide ApplyMark;
    ShrinkOne(s, t, p);
    if Known(s, g) && MayRecord(s, g) { RecordWindow(s, g); }
    NotPurged(s, g);
    IdleKept(s, t, p, g);
    OneTimedStep(s, t, p);
  }

  lemma NotPurged(s: State, g: GenId)
    requires Inv(s)
    ensures g in s.store.rows ==> g !in s.purged
  {
    if g in s.store.rows { assert RowOk(s, g); }
  }

  lemma CheckTimed(s: State, p: nat, action: CheckAction)
    requires Inv(s) && TimedInv(s) && CheckEnabled(s, p, action)
    ensures TimedInv(ActCheck(s, p, action))
  {
    hide Inv, TimedInv;
    match action
    case RouteCheck => RouteTimed(s, p);
    case Ask(served) => AskTimed(s, p, served);
    case Hear(reply) => HearTimed(s, p, reply);
    case ReadLabel => LabelTimed(s, p);
    case CommitCheck(answers) => CommitTimed(s, p, answers);
    case Reread => RestTimed(s, At(s, p, if s.procs[p].gen in s.store.rows then Returned else Gone), p);
    case MarkCancel(answers) => MarkTimed(s, p, answers);
  }

  // ---------- the steps around the processes ----------

  /** Time passes within every timeout, late writes end, and newcomers have nothing to write yet. */
  ghost predicate PassesTimely(s: State, t: State) {
    && s.now <= t.now && t.slack == s.slack && MayAdvance(s, t.now) && t.late <= s.late && RowsGrow(s, t)
    && (forall q :: q in s.procs ==> q in t.procs && t.procs[q] == s.procs[q])
    && (forall q :: q in t.procs && q !in s.procs ==> Fresh(s, t.procs[q]))
  }

  ghost predicate Fresh(s: State, q: Process) {
    && Deadline(q.phase).None? && !MayWrite(q.phase, s.now) && !q.phase.Committing?
    && (q.role == Submitter ==> !Known(s, q.gen))
  }

  lemma PassingShrinks(s: State, t: State)
    requires PassesTimely(s, t)
    ensures RecordsShrink(s, t)
  {
    forall q | q in t.procs && q !in s.procs ensures !MayWrite(t.procs[q].phase, t.now) { assert Fresh(s, t.procs[q]); }
  }

  lemma PassingTimed(s: State, t: State)
    requires Inv(s) && TimedInv(s) && PassesTimely(s, t) && SettledIdle(t)
    ensures TimedInv(t)
  {
    PassingShrinks(s, t);
    forall q | q in t.procs ensures ProcTimed(t, t.procs[q]) {
      if q in s.procs {
        assert ProcTimed(s, s.procs[q]);
        assert PhaseOk(s, q);
      } else {
        assert Fresh(s, t.procs[q]);
        assert forall w :: w in s.late ==> LateOk(s, w);
      }
    }
    forall w | w in t.late ensures LateOk(t, w) { FrameLate(s, t, w); }
  }

  lemma SameRowsTimed(s: State, t: State)
    requires Inv(s) && TimedInv(s) && PassesTimely(s, t)
    requires forall g :: Known(t, g) ==> Known(s, g) && RowOf(t, g) == RowOf(s, g)
    ensures TimedInv(t)
  {
    hide Inv;
    PassingShrinks(s, t);
    PassingTimed(s, t);
  }

  lemma LateLandsTimed(s: State, w: LateWrite)
    requires Inv(s) && TimedInv(s) && w in s.late
    ensures TimedInv(ApplyLate(s, w))
  {
    hide Inv, TimedInv;
    var t := ApplyLate(s, w);
    TablesThere(s);
    RecordGrows(s, w.gen, w.call);
    NoTimePasses(s);
    PassingShrinks(s, t);
    NotPurged(s, w.gen);
    IdleKept(s, t, 0, w.gen);
    PassingTimed(s, t);
  }

  lemma NoTimePasses(s: State)
    requires TimedInv(s)
    ensures MayAdvance(s, s.now)
  {
    forall p | p in s.procs ensures ProcTimed(s, s.procs[p]) {}
  }

  lemma Unknown(s: State, g: GenId)
    requires Inv(s) && g !in s.minted
    ensures !Known(s, g)
  {
    assert Known(s, g) ==> RowOk(s, g);
  }

  lemma PurgeTimed(s: State, ids: set<GenId>)
    requires Inv(s) && TimedInv(s) && MoveEnabled(s, Purge(ids))
    ensures TimedInv(ApplyPurge(s, ids))
  {
    hide Inv, TimedInv;
    var t := ApplyPurge(s, ids);
    TablesThere(s);
    NoTimePasses(s);
    PurgeGrows(s, ids);
    forall g | Known(t, g) ensures Known(s, g) && RowOf(t, g) == RowOf(s, g) {
      NotPurged(s, g);
    }
    SameRowsTimed(s, t);
  }

  lemma MoveTimed(s: State, move: Move)
    requires Inv(s) && TimedInv(s) && MoveEnabled(s, move) && TimelyStep(s, Around(move))
    ensures TimedInv(Surround(s, move))
  {
    hide Inv, TimedInv;
    NoTimePasses(s);
    match move
    case Purge(ids) => PurgeTimed(s, ids);
    case LateLands(w) => LateLandsTimed(s, w);
    case BeginSubmit(p, g, key, limit) =>
      Unknown(s, g);
      SameRowsGrow(s, Surround(s, move));
      SameRowsTimed(s, Surround(s, move));
    case _ =>
      SameRowsGrow(s, Surround(s, move));
      SameRowsTimed(s, Surround(s, move));
  }

  lemma LeaveTimed(s: State, p: nat)
    requires Inv(s) && TimedInv(s) && In(s, p)
    ensures TimedInv(Unlock(At(s, p, Gone), p))
  {
    hide Inv, TimedInv;
    RestTimed(s, Unlock(At(s, p, Gone), p), p);
  }

  // ---------- no step changes the slack ----------

  lemma SubmitSlack(s: State, p: nat, action: SubmitAction)
    requires SubmitEnabled(s, p, action)
    ensures ActSubmit(s, p, action).slack == s.slack
  {
    hide S.NewRow, S.HoldsKey, Live, AfterReady, AfterStartError, FirstWrite;
  }

  lemma RecordSlack(s: State, p: nat, action: RecordAction)
    requires RecordEnabled(s, p, action)
    ensures ActRecord(s, p, action).slack == s.slack
  {
    hide S.Record, S.WithUsage, S.UsageOf, S.ValidUsage, Awake, AfterOrphan, AfterRecord;
  }

  lemma CheckSlack(s: State, p: nat, action: CheckAction)
    requires CheckEnabled(s, p, action)
    ensures ActCheck(s, p, action).slack == s.slack
  {
    hide S.Commit, S.RequestCancel, Judge, AfterRoute, AfterLabel, RequestOf, StopSince, StuckQueued;
  }

  lemma StepSlack(s: State, step: Step)
    requires Enabled(s, step)
    ensures Apply(s, step).slack == s.slack
  {
    match step
    case Around(move) =>
    case Leaves(p) =>
    case Submits(p, action) => SubmitSlack(s, p, action); hide ActSubmit;
    case Records(p, action) => RecordSlack(s, p, action); hide ActRecord;
    case Checks(p, action) => CheckSlack(s, p, action); hide ActCheck;
  }

  lemma StepTimed(s: State, step: Step)
    requires Inv(s) && TimedInv(s) && Enabled(s, step) && TimelyStep(s, step)
    ensures TimedInv(Apply(s, step))
  {
    hide Inv, TimedInv;
    match step
    case Around(move) => MoveTimed(s, move);
    case Leaves(p) => LeaveTimed(s, p);
    case Submits(p, action) => SubmitTimed(s, p, action);
    case Records(p, action) => RecordTimed(s, p, action);
    case Checks(p, action) => CheckTimed(s, p, action);
  }

  lemma {:induction false} RunTimed(s: State, steps: seq<Step>)
    requires Inv(s) && TimedInv(s) && ValidRun(s, steps) && TimelyRun(s, steps)
    ensures Inv(Final(s, steps)) && TimedInv(Final(s, steps)) && Final(s, steps).slack == s.slack
    decreases |steps|
  {
    if steps != [] {
      StepKeeps(s, steps[0]);
      StepTimed(s, steps[0]);
      StepSlack(s, steps[0]);
      RunTimed(Apply(s, steps[0]), steps[1..]);
    }
  }

  /** In a timely run no generation is settled without the call id some process may still write, then or ever: so a
    * record write finds its own intent unsettled, or the very call it writes. */
  lemma NoPrematureUnknown(s0: State, steps: seq<Step>)
    requires Init(s0) && Tolerable(s0.slack) && ValidRun(s0, steps) && TimelyRun(s0, steps)
    ensures var s := Final(s0, steps);
      && (forall g :: Known(s, g) && MayRecord(s, g) ==>
            && RowOf(s, g).startRequestedAt.Some?
            && s.now - RowOf(s, g).startRequestedAt.value < START_OUTCOME_UNKNOWN_AFTER
            && (RowOf(s, g).Unsettled() || RowOf(s, g).callId.Some?))
      && (forall p :: p in s.procs && s.procs[p].phase.Writing? ==>
            var g := s.procs[p].gen;
            && Known(s, g)
            && (S.Recordable(RowOf(s, g)) || RowOf(s, g).callId == Some(s.procs[p].phase.call)))
  {
    InitHolds(s0);
    RunTimed(s0, steps);
    var s := Final(s0, steps);
    hide Inv;
    forall g | Known(s, g) && MayRecord(s, g)
      ensures RowOf(s, g).startRequestedAt.Some?
      ensures s.now - RowOf(s, g).startRequestedAt.value < START_OUTCOME_UNKNOWN_AFTER
    {
      RecordWindow(s, g);
    }
    forall p | p in s.procs && s.procs[p].phase.Writing?
      ensures var g := s.procs[p].gen;
        && Known(s, g)
        && (S.Recordable(RowOf(s, g)) || RowOf(s, g).callId == Some(s.procs[p].phase.call))
    {
      WriterFinds(s, p);
    }
  }

  /** In a timely run a start begins within twenty seconds of its intent, and its request leaves within the start's own
    * timeout of that. */
  lemma SendWindow(s0: State, steps: seq<Step>, p: nat)
    requires Init(s0) && Tolerable(s0.slack) && ValidRun(s0, steps) && TimelyRun(s0, steps)
    requires SubmitEnabled(Final(s0, steps), p, Send)
    ensures var s := Final(s0, steps);
      var a := s.procs[p].phase;
      && s.slack == s0.slack && 0 <= BegunAt(a) < START_TIMEOUT
      && BegunAt(a) <= s.now - a.intentAt <= BegunAt(a) + StartTimeout(a.row.key.streamed) + s.slack
  {
    InitHolds(s0);
    RunTimed(s0, steps);
    hide Inv, TimedInv;
    TimedStanding(Final(s0, steps), p);
  }

  lemma WriterFinds(s: State, p: nat)
    requires Inv(s) && TimedInv(s) && In(s, p) && PhaseOf(s, p).Writing?
    ensures Known(s, s.procs[p].gen)
    ensures var r := RowOf(s, s.procs[p].gen);
      S.Recordable(r) || r.callId == Some(PhaseOf(s, p).call)
  {
    hide Inv;
    Standing(s, p);
    var g := s.procs[p].gen;
    RowStanding(s, g);
    CallStanding(s, p, PhaseOf(s, p).row, PhaseOf(s, p).call);
    assert MayRecord(s, g);
    if RowOf(s, g).callId.Some? { OneCallHere(s, RowOf(s, g).callId.value, PhaseOf(s, p).call); }
  }
}
