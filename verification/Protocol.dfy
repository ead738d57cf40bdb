/** Every process that submits, checks, cancels or sweeps generations, one atomic step at a time.
  *
  * A process only knows what it last read. Between any two of its steps every other process may move, and it may
  * itself freeze, fail or end for good. Each database statement is one step, and so is each move of the provider.
  */
module Protocol {
  import opened Types
  import opened Check
  import opened Connector
  import opened Counting
  import RecordLoop
  import S = Store

  // ---------- the provider ----------

  /** What became of a request one process sent to the provider. */
  datatype Fate = InFlight | Accepted(call: CallId) | Refused

  datatype Request = Request(gen: GenId, fate: Fate)

  /** A call the provider accepted: the request it came from, and the provider's account of it. */
  datatype Operation = Operation(gen: GenId, sender: nat, call: Call)

  // ---------- the processes ----------

  datatype Role = Submitter | Canceller | Checker

  /** Where a process stands, with all it remembers. */
  datatype Phase =
    // a submit, up to its commit
    | Submitting(key: Identity, limit: Option<nat>, intentAt: Time)
    | Admitting(row: Generation, limit: Option<nat>, intentAt: Time, txAt: Time, counted: bool)
    // the start of the provider call
    | Ready(row: Generation, intentAt: Time)
    | Starting(row: Generation, intentAt: Time, sent: bool, until: Time)
    | Writing(row: Generation, intentAt: Time, call: CallId, first: bool, pause: Time, until: Time)
    | Pausing(row: Generation, intentAt: Time, call: CallId, pause: Time, wake: Time)
    | ReadingBack(row: Generation, call: CallId)
    | StoppingOrphan(row: Generation, call: CallId)
    | OrphanStopped(row: Generation, call: CallId)
    | MeteringOrphan(row: Generation, call: CallId, usage: Usage)
    | Recorded(read: Snapshot)
    // a check
    | Checking(read: Snapshot)
    | Observing(read: Snapshot)
    | Awaiting(read: Snapshot, since: Option<Time>)
    | Relabelling(read: Snapshot, answer: Call)
    | Committing(read: Snapshot, plan: Plan, answered: bool)
    | Rereading
    // a cancel
    | Cancelling(owner: seq<byte>)
    // the end: an answer, or none
    | Returned
    | Gone

  /** `confirmed` is the row a start's record came back with, `marked` the row a cancel came back with. */
  datatype Process = Process(
    role: Role, gen: GenId, phase: Phase, confirmed: Option<Generation>, marked: Option<Generation>)

  /** A record write its process gave up on, which the database may still finish. */
  datatype LateWrite = LateWrite(gen: GenId, call: CallId, until: Time)

  datatype State = State(
    now: Time,
    retention: Time,
    slack: Time,                          // how far past its timeout anything may run, while the run is timely
    store: S.Store,
    purged: map<GenId, Generation>,       // rows the purge took, as they were
    locks: map<seq<byte>, nat>,           // the owner locks, by the process whose transaction holds them
    late: set<LateWrite>,
    requests: map<nat, Request>,          // by the process that sent it
    sends: multiset<GenId>,               // every request that fully left, by generation
    ops: map<CallId, Operation>,
    stops: set<CallId>,                   // calls the provider was asked to cancel
    minted: set<GenId>,
    procs: map<nat, Process>)

  function At(s: State, p: nat, phase: Phase): State
    requires p in s.procs
  {
    s.(procs := s.procs[p := s.procs[p].(phase := phase)])
  }

  predicate In(s: State, p: nat) {
    p in s.procs
  }

  function PhaseOf(s: State, p: nat): Phase
    requires p in s.procs
  {
    s.procs[p].phase
  }

  function WithRow(s: State, row: Generation): State {
    s.(store := s.store.(rows := s.store.rows[row.id := row]))
  }

  // ---------- the steps ----------

  /** What happens around the processes: time, the purge, the provider, late writes, and new processes. */
  datatype Move =
    | Tick(t: Time)
    | Purge(ids: set<GenId>)
    | ProviderAccepts(sender: nat, c: CallId, call: Call)
    | ProviderRefuses(sender: nat)
    | ProviderMoves(c: CallId, call: Call)
    | LateLands(w: LateWrite)
    | LateDrops(w: LateWrite)
    | BeginSubmit(p: nat, g: GenId, key: Identity, limit: Option<nat>)
    | BeginCheck(p: nat, g: GenId)
    | BeginCancel(p: nat, g: GenId, owner: seq<byte>)

  /** What a submit does up to the provider's answer to its start. */
  datatype SubmitAction =
    | Insert(txAt: Time)
    | Admit(usageReached: bool)
    | CommitSubmit
    | BeginStart(served: bool)
    | Send
    | StartFails(error: StartError, body: Option<Response>)
    | StartNames

  /** What a start does with the call the provider accepted. */
  datatype RecordAction =
    | Write
    | LoseWrite
    | Wake
    | ReadBack
    | StopOrphan
    | OrphanAnswers(reply: Reply)
    | MeterOrphan
    | FinishStart

  /** What a check does, and the mark of a cancel. */
  datatype CheckAction =
    | RouteCheck
    | Ask(served: bool)
    | Hear(reply: Reply)
    | ReadLabel
    | CommitCheck(answers: bool)
    | Reread
    | MarkCancel(answers: bool)

  /** A process may leave at any point: it crashed, froze for good or met an error. */
  datatype Step =
    | Around(move: Move)
    | Leaves(p: nat)
    | Submits(p: nat, submit: SubmitAction)
    | Records(p: nat, record: RecordAction)
    | Checks(p: nat, check: CheckAction)

  /** A provider changes its account of a call only until the call ends, and cancels one only when asked. */
  predicate MayMove(s: State, c: CallId, call: Call) {
    && c in s.ops
    && !s.ops[c].call.state.Terminal()
    && Honest(call)
    && (call.state == CallCancelled ==> c in s.stops)
  }

  /** A call that has not ended has no answer and no usage to report. */
  predicate Honest(call: Call) {
    !call.state.Terminal() ==> call.response.None? && call.usage.None?
  }

  /** What the provider may answer about a call when asked: its account of it, or a failure of any kind. */
  predicate Plausible(s: State, c: CallId, reply: Reply) {
    reply.Told? ==> c in s.ops && reply.call == s.ops[c].call
  }

  /** Provider contract: a start error that says nothing was accepted means the request never will be. */
  predicate Truthful(s: State, p: nat, sent: bool, error: StartError) {
    && (error.Status? ==> error.code >= 400)
    && (error.Status? && Definitive(error.code) && p in s.requests ==> s.requests[p].fate.Refused?)
    && (error.Unnamed? ==> sent)
  }

  predicate MoveEnabled(s: State, move: Move) {
    match move
    case Tick(t) => s.now <= t
    case Purge(ids) => forall g | g in ids :: g in s.store.rows && S.Expired(s.store.rows[g], s.now)
    case ProviderAccepts(p, c, call) =>
      p in s.requests && s.requests[p].fate.InFlight? && c !in s.ops && Honest(call) && call.state != CallCancelled
    case ProviderRefuses(p) => p in s.requests && s.requests[p].fate.InFlight?
    case ProviderMoves(c, call) => MayMove(s, c, call)
    case LateLands(w) => w in s.late
    case LateDrops(w) => w in s.late
    case BeginSubmit(p, g, key, limit) => p !in s.procs && g !in s.minted
    case BeginCheck(p, g) => p !in s.procs && g in s.store.rows
    case BeginCancel(p, g, owner) => p !in s.procs
  }

  predicate SubmitEnabled(s: State, p: nat, action: SubmitAction) {
    In(s, p) &&
    var a := PhaseOf(s, p);
    match action
    case Insert(txAt) => a.Submitting? && a.key.owner !in s.locks && a.intentAt <= txAt <= s.now
    case Admit(usageReached) => a.Admitting? && !a.counted
    case CommitSubmit => a.Admitting? && a.counted
    case BeginStart(served) => a.Ready?
    case Send => a.Starting? && !a.sent
    case StartFails(error, body) => a.Starting? && Truthful(s, p, a.sent, error)
    case StartNames => a.Starting? && p in s.requests && s.requests[p].fate.Accepted?
  }

  predicate RecordEnabled(s: State, p: nat, action: RecordAction) {
    In(s, p) &&
    var a := PhaseOf(s, p);
    match action
    case Write => a.Writing?
    case LoseWrite => a.Writing?
    case Wake => a.Pausing? && a.wake <= s.now
    case ReadBack => a.ReadingBack?
    case StopOrphan => a.StoppingOrphan?
    case OrphanAnswers(reply) => a.OrphanStopped? && Plausible(s, a.call, reply)
    case MeterOrphan => a.MeteringOrphan?
    case FinishStart => a.Recorded?
  }

  predicate CheckEnabled(s: State, p: nat, action: CheckAction) {
    In(s, p) &&
    var a := PhaseOf(s, p);
    match action
    case RouteCheck => a.Checking?
    case Ask(served) => a.Observing? && Observable(a.read)
    case Hear(reply) => a.Awaiting? && Observable(a.read) && Plausible(s, a.read.row.callId.value, reply)
    case ReadLabel => a.Relabelling?
    case CommitCheck(answers) => a.Committing?
    case Reread => a.Rereading?
    case MarkCancel(answers) => a.Cancelling?
  }

  predicate Enabled(s: State, step: Step) {
    match step
    case Around(move) => MoveEnabled(s, move)
    case Leaves(p) => In(s, p)
    case Submits(p, action) => SubmitEnabled(s, p, action)
    case Records(p, action) => RecordEnabled(s, p, action)
    case Checks(p, action) => CheckEnabled(s, p, action)
  }

  function Surround(s: State, move: Move): State
    requires MoveEnabled(s, move)
  {
    match move
    case Tick(t) => s.(now := t)
    case Purge(ids) => ApplyPurge(s, ids)
    case ProviderAccepts(p, c, call) =>
      s.(requests := s.requests[p := s.requests[p].(fate := Accepted(c))],
         ops := s.ops[c := Operation(s.requests[p].gen, p, call)])
    case ProviderRefuses(p) => s.(requests := s.requests[p := s.requests[p].(fate := Fate.Refused)])
    case ProviderMoves(c, call) => s.(ops := s.ops[c := s.ops[c].(call := call)])
    case LateLands(w) => ApplyLate(s, w)
    case LateDrops(w) => s.(late := s.late - {w})
    case BeginSubmit(p, g, key, limit) =>
      Spawned(s.(minted := s.minted + {g}), p, Submitter, g, Submitting(key, limit, s.now))
    case BeginCheck(p, g) => Spawned(s, p, Checker, g, Checking(Snapshot(s.store.rows[g], s.now)))
    case BeginCancel(p, g, owner) => Spawned(s, p, Canceller, g, Cancelling(owner))
  }

  function ActSubmit(s: State, p: nat, action: SubmitAction): State
    requires SubmitEnabled(s, p, action)
  {
    var a := PhaseOf(s, p);
    match action
    case Insert(txAt) => ApplyInsert(s, p, txAt)
    case Admit(usageReached) => ApplyAdmit(s, p, usageReached)
    case CommitSubmit => ApplyCommitSubmit(s, p)
    case BeginStart(served) => At(s, p, AfterReady(s, a, served))
    case Send => ApplySend(s, p)
    case StartFails(error, body) => At(s, p, AfterStartError(s, a, error, body))
    case StartNames => At(s, p, FirstWrite(s, a, s.requests[p].fate.call))
  }

  function ActRecord(s: State, p: nat, action: RecordAction): State
    requires RecordEnabled(s, p, action)
  {
    var a := PhaseOf(s, p);
    match action
    case Write => ApplyWrite(s, p)
    case LoseWrite => ApplyLoseWrite(s, p)
    case Wake => At(s, p, Awake(s, a))
    case ReadBack => ApplyReadBack(s, p)
    case StopOrphan => ApplyStopOrphan(s, p)
    case OrphanAnswers(reply) => At(s, p, AfterOrphan(a, reply))
    case MeterOrphan => ApplyMeter(s, p)
    case FinishStart => At(s, p, AfterRecord(a.read))
  }

  function ActCheck(s: State, p: nat, action: CheckAction): State
    requires CheckEnabled(s, p, action)
  {
    var a := PhaseOf(s, p);
    match action
    case RouteCheck => At(s, p, AfterRoute(a.read))
    case Ask(served) => ApplyAsk(s, p, served)
    case Hear(reply) => ApplyHear(s, p, reply)
    case ReadLabel => At(s, p, AfterLabel(s, s.procs[p]))
    case CommitCheck(answers) => ApplyCommit(s, p, answers)
    case Reread => At(s, p, if s.procs[p].gen in s.store.rows then Returned else Gone)
    case MarkCancel(answers) => ApplyMark(s, p, answers)
  }

  function Apply(s: State, step: Step): State
    requires Enabled(s, step)
  {
    match step
    case Around(move) => Surround(s, move)
    case Leaves(p) => Unlock(At(s, p, Gone), p)
    case Submits(p, action) => ActSubmit(s, p, action)
    case Records(p, action) => ActRecord(s, p, action)
    case Checks(p, action) => ActCheck(s, p, action)
  }

  function Spawned(s: State, p: nat, role: Role, g: GenId, phase: Phase): State {
    s.(procs := s.procs[p := Process(role, g, phase, None, None)])
  }

  /** The database finishes a record write its process gave up on. */
  function ApplyLate(s: State, w: LateWrite): State {
    s.(late := s.late - {w}, store := S.Record(s.store, w.gen, w.call).0)
  }

  /** Each call of the purge takes some of the rows whose retention has passed. */
  function ApplyPurge(s: State, ids: set<GenId>): State
    requires forall g | g in ids :: g in s.store.rows
  {
    s.(store := S.Purge(s.store, ids), purged := s.purged + map g | g in ids :: s.store.rows[g])
  }

  /** The commit makes the row visible, its start intent included. */
  function ApplyCommitSubmit(s: State, p: nat): State
    requires In(s, p) && PhaseOf(s, p).Admitting?
  {
    var a := PhaseOf(s, p);
    Unlock(WithRow(At(s, p, Ready(a.row, a.intentAt)), a.row), p)
  }

  /** The request fully left. */
  function ApplySend(s: State, p: nat): State
    requires In(s, p) && PhaseOf(s, p).Starting?
  {
    var a := PhaseOf(s, p);
    At(s, p, a.(sent := true)).(
      requests := s.requests[p := Request(a.row.id, InFlight)],
      sends := s.sends + multiset{a.row.id})
  }

  /** A transaction that ends releases its owner's lock. */
  function Unlock(s: State, p: nat): State {
    s.(locks := map o | o in s.locks && s.locks[o] != p :: s.locks[o])
  }

  /** The insert, or the replay of a row that holds the key. The row is not visible before the commit. */
  function ApplyInsert(s: State, p: nat, txAt: Time): State
    requires In(s, p) && PhaseOf(s, p).Submitting?
  {
    var a := PhaseOf(s, p);
    if exists g :: g in s.store.rows && s.store.rows[g].key == a.key && S.HoldsKey(s.store.rows[g]) then
      At(s, p, Returned)
    else
      var row := S.NewRow(s.procs[p].gen, a.key, s.now);
      At(s, p, Admitting(row, a.limit, a.intentAt, txAt, false)).(locks := s.locks[a.key.owner := p])
  }

  /** The live count includes the row just inserted, and reads the clock of the transaction's start. */
  function ApplyAdmit(s: State, p: nat, usageReached: bool): State
    requires In(s, p) && PhaseOf(s, p).Admitting?
  {
    var a := PhaseOf(s, p);
    var live := |Live(s.store.rows[a.row.id := a.row], a.row.key.owner, a.row.key.purpose, a.txAt)|;
    if usageReached || (a.limit.Some? && live > a.limit.value) then Unlock(At(s, p, Returned), p)
    else At(s, p, a.(counted := true))
  }

  /** A start with no connector or too old is not sent. Otherwise it begins. */
  function AfterReady(s: State, a: Phase, served: bool): Phase
    requires a.Ready?
  {
    if !served then Committing(Snapshot(a.row, s.now), FailPlan(ProviderUnavailable, NotStarted, None), false)
    else if s.now - a.intentAt >= START_TIMEOUT then
      Committing(Snapshot(a.row, s.now), FailPlan(StartFailed, NotStarted, None), false)
    else
      Starting(a.row, a.intentAt, false,
               s.now + if a.row.key.streamed then STREAM_START_TIMEOUT else START_TIMEOUT)
  }

  function AfterStartError(s: State, a: Phase, error: StartError, body: Option<Response>): Phase
    requires a.Starting?
  {
    Committing(Snapshot(a.row, s.now), StartFailurePlan(ClassifyStart(error, a.sent), body), false)
  }

  function FirstWrite(s: State, a: Phase, c: CallId): Phase
    requires a.Starting?
  {
    Writing(a.row, a.intentAt, c, true, RECORD_PAUSE, s.now + PERSISTENCE_TIMEOUT)
  }

  function ApplyWrite(s: State, p: nat): State
    requires In(s, p) && PhaseOf(s, p).Writing?
  {
    var a := PhaseOf(s, p);
    var (store, outcome) := S.Record(s.store, a.row.id, a.call);
    if outcome.Landed? then
      s.(store := store,
         procs := s.procs[p := s.procs[p].(confirmed := Some(outcome.row), phase := Recorded(Snapshot(outcome.row, s.now)))])
    else At(s, p, if a.first then StoppingOrphan(a.row, a.call) else ReadingBack(a.row, a.call))
  }

  /** A write with no answer may still land: its statement may have begun as late as its client gave it up, after a wait
    * for a connection. It is written again while its patience lasts. */
  function ApplyLoseWrite(s: State, p: nat): State
    requires In(s, p) && PhaseOf(s, p).Writing?
  {
    var a := PhaseOf(s, p);
    var late := LateWrite(a.row.id, a.call, a.until + STATEMENT_TIMEOUT);
    At(s, p, if s.now + a.pause < a.intentAt + RECORD_PATIENCE
             then Pausing(a.row, a.intentAt, a.call, RecordLoop.Doubled(a.pause), s.now + a.pause)
             else ReadingBack(a.row, a.call)).(late := s.late + {late})
  }

  function ApplyReadBack(s: State, p: nat): State
    requires In(s, p) && PhaseOf(s, p).ReadingBack?
  {
    var a := PhaseOf(s, p);
    if a.row.id !in s.store.rows then At(s, p, Gone)
    else if s.store.rows[a.row.id].callId == Some(a.call) then
      var row := s.store.rows[a.row.id];
      s.(procs := s.procs[p := s.procs[p].(confirmed := Some(row), phase := Recorded(Snapshot(row, s.now)))])
    else At(s, p, StoppingOrphan(a.row, a.call))
  }

  function Awake(s: State, a: Phase): Phase
    requires a.Pausing?
  {
    Writing(a.row, a.intentAt, a.call, false, a.pause, s.now + PERSISTENCE_TIMEOUT)
  }

  function ApplyStopOrphan(s: State, p: nat): State
    requires In(s, p) && PhaseOf(s, p).StoppingOrphan?
  {
    var a := PhaseOf(s, p);
    At(s, p, OrphanStopped(a.row, a.call)).(stops := s.stops + {a.call})
  }

  function AfterOrphan(a: Phase, reply: Reply): Phase
    requires a.OrphanStopped?
  {
    if reply.Told? && reply.call.usage.Some? then MeteringOrphan(a.row, a.call, reply.call.usage.value) else Gone
  }

  /** A cancel that found no call to stop left its mark on the row. */
  function AfterRecord(read: Snapshot): Phase {
    if read.row.cancelRequestedAt.None? then Returned else Observing(read)
  }

  function ApplyMeter(s: State, p: nat): State
    requires In(s, p) && PhaseOf(s, p).MeteringOrphan?
  {
    var a := PhaseOf(s, p);
    if !S.ValidUsage(a.usage) then At(s, p, Gone)
    else At(s, p, Gone).(store := s.store.(
      usage := S.WithUsage(s.store.usage, a.row.id, S.UsageOf(a.row.key, a.usage, s.now))))
  }

  function AfterRoute(read: Snapshot): Phase {
    match RouteOf(read)
    case Done => Returned
    case Observe => Observing(read)
    case Wait => Returned
    case Conclude(plan) => Committing(read, plan, false)
  }

  function ApplyAsk(s: State, p: nat, served: bool): State
    requires In(s, p) && PhaseOf(s, p).Observing? && Observable(PhaseOf(s, p).read)
  {
    var read := PhaseOf(s, p).read;
    if !served then At(s, p, Committing(read, FailPlan(ProviderUnavailable, OutcomeUnknown, None), false))
    else if StopSince(read).None? then At(s, p, Awaiting(read, None))
    else At(s, p, Awaiting(read, StopSince(read))).(stops := s.stops + {read.row.callId.value})
  }

  function ApplyHear(s: State, p: nat, reply: Reply): State
    requires In(s, p) && PhaseOf(s, p).Awaiting? && Observable(PhaseOf(s, p).read)
  {
    var Awaiting(read, since) := PhaseOf(s, p);
    if since.None? && StuckQueued(read, reply) then
      At(s, p, Awaiting(read, Some(QueuedSince(read)))).(stops := s.stops + {read.row.callId.value})
    else match Judge(read, reply, since)
      case Keep => At(s, p, Returned)
      case Relabel(call) => At(s, p, Relabelling(read, call))
      case Give(plan) => At(s, p, Committing(read, plan, reply.Told? && reply.call.state.Terminal()))
  }

  /** The label comes from the row as it stands; the fence stays on the row first read. */
  function AfterLabel(s: State, q: Process): Phase
    requires q.phase.Relabelling?
  {
    if q.gen !in s.store.rows then Gone
    else Committing(q.phase.read, SettlePlan(s.store.rows[q.gen].cancelRequestedAt.Some?, q.phase.answer), true)
  }

  /** The transaction may land with no answer. One the values make impossible may fall back to the bare failure. */
  function ApplyCommit(s: State, p: nat, answers: bool): State
    requires In(s, p) && PhaseOf(s, p).Committing?
  {
    var Committing(read, plan, answered) := PhaseOf(s, p);
    var (store, outcome) := S.Commit(s.store, RequestOf(read.row, plan), plan.response, plan.usage,
                                     read.row.key, s.now, s.retention);
    var after := match outcome
      case Landed(_) => Returned
      case Changed => Rereading
      case Refused => if answered && PastGivingUp(read) then Committing(read, UNRECORDED, false) else Gone;
    At(s, p, if answers then after else Gone).(store := store)
  }

  /** A call already known is stopped right away, by a check of the row as the mark left it. */
  function ApplyMark(s: State, p: nat, answers: bool): State
    requires In(s, p) && PhaseOf(s, p).Cancelling?
  {
    var q := s.procs[p];
    var (store, row) := S.RequestCancel(s.store, q.gen, q.phase.owner, s.now, s.retention);
    if !answers then At(s, p, Gone).(store := store)
    else if row.None? then
      At(s, p, if q.gen in s.store.rows && s.store.rows[q.gen].key.owner == q.phase.owner then Returned else Gone)
    else
      var phase := if row.value.callId.Some? && row.value.Unsettled() then Checking(Snapshot(row.value, s.now)) else Returned;
      s.(store := store, procs := s.procs[p := q.(marked := row, phase := phase)])
  }

  // ---------- runs ----------

  /** At first the table holds only what an earlier release left: generations with no call, whether settled, never
    * started, or started by processes now gone. */
  ghost predicate Init(s: State) {
    && s.retention >= UNKNOWN_OUTCOME_HOLD
    && (forall g | g in s.store.rows ::
          var r := s.store.rows[g];
          && r.id == g && S.WellFormed(r) && Dated(r, s.retention, s.now) && g in s.minted
          && r.callId.None? && r.error != Some(Reason.CallFailed) && r.error != Some(Overdue))
    && (forall g, h | g in s.store.rows && h in s.store.rows && g != h ::
          S.HoldsKey(s.store.rows[g]) && S.HoldsKey(s.store.rows[h]) ==> s.store.rows[g].key != s.store.rows[h].key)
    && s.store.attempts == map[] && s.store.usage == map[] && s.purged == map[] && s.locks == map[]
    && s.late == {} && s.requests == map[] && s.sends == multiset{} && s.ops == map[] && s.stops == {} && s.procs == map[]
  }

  /** A settled row expires its retention after it settled, by the clock that settled it. */
  predicate Dated(r: Generation, retention: Time, now: Time) {
    && (r.startRequestedAt.Some? ==> r.startRequestedAt.value <= now)
    && (r.cancelRequestedAt.Some? ==> r.cancelRequestedAt.value <= now)
    && (r.settledAt.Some? ==> r.settledAt.value <= now)
    && (r.settledAt.Some? && r.expiresAt.Some? ==> r.expiresAt.value == r.settledAt.value + retention)
  }

  ghost predicate ValidRun(s: State, steps: seq<Step>)
    decreases |steps|
  {
    steps == [] || (Enabled(s, steps[0]) && ValidRun(Apply(s, steps[0]), steps[1..]))
  }

  ghost function Final(s: State, steps: seq<Step>): State
    requires ValidRun(s, steps)
    decreases |steps|
  {
    if steps == [] then s else Final(Apply(s, steps[0]), steps[1..])
  }
}
