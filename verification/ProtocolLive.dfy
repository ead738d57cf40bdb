/** An owner's live generations of one purpose stay within the concurrency its submits carry. */
module ProtocolLive {
  import opened Types
  import opened Check
  import opened Counting
  import opened Protocol
  import opened ProtocolInvariant
  import opened ProtocolSafety
  import opened ProtocolSteps
  import opened ProtocolHistory
  import S = Store

  function Now(s: State, owner: seq<byte>, purpose: seq<byte>): set<GenId> {
    Live(s.store.rows, owner, purpose, s.now)
  }

  predicate For(key: Identity, owner: seq<byte>, purpose: seq<byte>) {
    key.owner == owner && key.purpose == purpose
  }

  lemma SubsetSize<T>(a: set<T>, b: set<T>)
    requires a <= b
    ensures |a| <= |b|
  {
    assert b == a + (b - a);
  }

  /** Every row that counts after the step counted before it. */
  ghost predicate Calm(a: map<GenId, Generation>, at: Time, b: map<GenId, Generation>, bt: Time,
                       owner: seq<byte>, purpose: seq<byte>) {
    forall g | g in b && CountsLive(b[g], owner, purpose, bt) :: g in a && CountsLive(a[g], owner, purpose, at)
  }

  lemma CalmShrinks(a: map<GenId, Generation>, at: Time, b: map<GenId, Generation>, bt: Time,
                    owner: seq<byte>, purpose: seq<byte>, r: Generation)
    requires Calm(a, at, b, bt, owner, purpose) && at <= bt
    ensures Live(b, owner, purpose, bt) <= Live(a, owner, purpose, at)
    ensures |Live(b, owner, purpose, bt)| <= |Live(a, owner, purpose, at)|
    ensures |Live(b[r.id := r], owner, purpose, bt)| <= |Live(a[r.id := r], owner, purpose, at)|
  {
    SubsetSize(Live(b, owner, purpose, bt), Live(a, owner, purpose, at));
    SubsetSize(Live(b[r.id := r], owner, purpose, bt), Live(a[r.id := r], owner, purpose, at));
  }

  /** Rows that only grow, with none added, never start to count: not by a settle, a cancel or a late record. */
  lemma GrownIsCalm(s: State, t: State, owner: seq<byte>, purpose: seq<byte>)
    requires RowsGrow(s, t) && s.now <= t.now && t.store.rows.Keys <= s.store.rows.Keys
    ensures Calm(s.store.rows, s.now, t.store.rows, t.now, owner, purpose)
  {
    forall g | g in t.store.rows && CountsLive(t.store.rows[g], owner, purpose, t.now)
      ensures g in s.store.rows && CountsLive(s.store.rows[g], owner, purpose, s.now)
    {
      assert S.Precedes(RowOf(s, g), RowOf(t, g));
    }
  }

  /** The purge takes no row that still counts, because a row outlives its hold. */
  lemma PurgeSparesLive(s: State, ids: set<GenId>, owner: seq<byte>, purpose: seq<byte>)
    requires Inv(s) && MoveEnabled(s, Purge(ids))
    ensures Now(ApplyPurge(s, ids), owner, purpose) == Now(s, owner, purpose)
  {
    forall g | g in ids ensures g !in Now(s, owner, purpose) {
      assert RowOk(s, g);
    }
  }

  // ---------- which steps add a row ----------

  /** What is known after a step was known before it. */
  ghost predicate LearnsNone(s: State, t: State) {
    t.store.rows.Keys <= s.store.rows.Keys && t.purged.Keys <= s.purged.Keys + s.store.rows.Keys
  }

  lemma MoveAddsNone(s: State, move: Move)
    requires MoveEnabled(s, move)
    ensures var t := Surround(s, move); LearnsNone(s, t) && s.now <= t.now
  {
  }

  lemma SubmitAddsNone(s: State, p: nat, action: SubmitAction)
    requires SubmitEnabled(s, p, action) && !action.CommitSubmit?
    ensures var t := ActSubmit(s, p, action); t.store.rows == s.store.rows && t.purged == s.purged && s.now == t.now
  {
    match action
    case Insert(txAt) => InsertRests(s, p, txAt);
    case _ =>
  }

  lemma RecordAddsNone(s: State, p: nat, action: RecordAction)
    requires RecordEnabled(s, p, action)
    ensures var t := ActRecord(s, p, action); LearnsNone(s, t) && s.now == t.now
  {
  }

  lemma CheckAddsNone(s: State, p: nat, action: CheckAction)
    requires CheckEnabled(s, p, action)
    ensures var t := ActCheck(s, p, action); LearnsNone(s, t) && s.now == t.now
  {
    match action
    case CommitCheck(answers) => CommitLeaves(s, p, answers);
    case MarkCancel(answers) => MarkLeaves(s, p, answers); MarkRows(s, p, answers);
    case _ =>
  }

  predicate AddsRow(step: Step) {
    step.Submits? && step.submit.CommitSubmit?
  }

  /** Only an admitted submit raises the live count: no check, no cancel, no purge and no passing time does. */
  lemma OnlySubmitsRaise(s: State, step: Step, owner: seq<byte>, purpose: seq<byte>)
    requires Inv(s) && Enabled(s, step) && !AddsRow(step)
    ensures Calm(s.store.rows, s.now, Apply(s, step).store.rows, Apply(s, step).now, owner, purpose)
    ensures s.now <= Apply(s, step).now
    ensures |Now(Apply(s, step), owner, purpose)| <= |Now(s, owner, purpose)|
  {
    StepGrows(s, step);
    hide Inv;
    match step {
      case Around(move) => MoveAddsNone(s, move);
      case Leaves(p) =>
      case Submits(p, action) => SubmitAddsNone(s, p, action);
      case Records(p, action) => RecordAddsNone(s, p, action);
      case Checks(p, action) => CheckAddsNone(s, p, action);
    }
    hide Apply;
    var t := Apply(s, step);
    GrownIsCalm(s, t, owner, purpose);
    SubsetSize(Now(t, owner, purpose), Now(s, owner, purpose));
  }

  // ---------- the bound ----------

  ghost predicate PhaseCapped(s: State, a: Phase, owner: seq<byte>, purpose: seq<byte>, c: nat) {
    && (a.Submitting? && For(a.key, owner, purpose) ==> a.limit.Some? && a.limit.value <= c)
    && (a.Admitting? && For(a.row.key, owner, purpose) ==>
          && a.limit.Some? && a.limit.value <= c
          && (a.counted ==> |Live(s.store.rows[a.row.id := a.row], owner, purpose, s.now)| <= c))
  }

  ghost predicate Capped(s: State, owner: seq<byte>, purpose: seq<byte>, c: nat) {
    && |Now(s, owner, purpose)| <= c
    && forall p :: p in s.procs ==> PhaseCapped(s, s.procs[p].phase, owner, purpose, c)
  }

  /** Every submit of the owner and the purpose carries a concurrency within the bound. */
  predicate CarriesCap(step: Step, owner: seq<byte>, purpose: seq<byte>, c: nat) {
    step.Around? && step.move.BeginSubmit? && For(step.move.key, owner, purpose) ==>
      step.move.limit.Some? && step.move.limit.value <= c
  }

  lemma FrameCapped(s: State, t: State, a: Phase, owner: seq<byte>, purpose: seq<byte>, c: nat)
    requires PhaseCapped(s, a, owner, purpose, c) && s.now <= t.now
    requires Calm(s.store.rows, s.now, t.store.rows, t.now, owner, purpose)
    ensures PhaseCapped(t, a, owner, purpose, c)
  {
    if a.Admitting? { CalmShrinks(s.store.rows, s.now, t.store.rows, t.now, owner, purpose, a.row); }
  }

  /** The admission's count covers the row it admits, on the clock of a transaction that began before. */
  lemma AdmitCapped(s: State, p: nat, usageReached: bool, owner: seq<byte>, purpose: seq<byte>, c: nat)
    requires Inv(s) && Capped(s, owner, purpose, c) && In(s, p) && PhaseOf(s, p).Admitting?
    ensures PhaseCapped(ApplyAdmit(s, p, usageReached), ApplyAdmit(s, p, usageReached).procs[p].phase, owner, purpose, c)
  {
    hide Inv;
    Standing(s, p);
    var a := PhaseOf(s, p);
    assert PhaseCapped(s, a, owner, purpose, c);
    var rows := s.store.rows[a.row.id := a.row];
    CalmShrinks(rows, a.txAt, rows, s.now, owner, purpose, a.row);
  }

  lemma SubmitCaps(s: State, p: nat, action: SubmitAction, owner: seq<byte>, purpose: seq<byte>, c: nat)
    requires Inv(s) && Capped(s, owner, purpose, c) && SubmitEnabled(s, p, action) && !action.CommitSubmit?
    ensures var t := ActSubmit(s, p, action); In(t, p) && PhaseCapped(t, t.procs[p].phase, owner, purpose, c)
  {
    hide Inv;
    SubmitActionMoves(s, p, action);
    assert PhaseCapped(s, PhaseOf(s, p), owner, purpose, c);
    match action
    case Admit(usageReached) => AdmitCapped(s, p, usageReached, owner, purpose, c);
    case _ =>
  }

  predicate InSubmit(a: Phase) {
    a.Submitting? || a.Admitting?
  }

  lemma RecordLeavesSubmit(s: State, p: nat, action: RecordAction)
    requires RecordEnabled(s, p, action)
    ensures In(ActRecord(s, p, action), p) && !InSubmit(ActRecord(s, p, action).procs[p].phase)
  {
  }

  lemma CheckLeavesSubmit(s: State, p: nat, action: CheckAction)
    requires CheckEnabled(s, p, action)
    ensures In(ActCheck(s, p, action), p) && !InSubmit(ActCheck(s, p, action).procs[p].phase)
  {
    hide Judge;
    match action
    case Ask(served) => AskMoves(s, p, served); hide ApplyAsk;
    case Hear(reply) => HearMoves(s, p, reply); hide ApplyHear;
    case CommitCheck(answers) => CommitLeaves(s, p, answers); hide ApplyCommit;
    case MarkCancel(answers) => MarkLeaves(s, p, answers); hide ApplyMark;
    case _ => hide ApplyAsk, ApplyHear, ApplyCommit, ApplyMark;
  }

  /** The steps around the processes bring in submits that carry the cap, and move no process. */
  lemma MoveBrings(s: State, move: Move, owner: seq<byte>, purpose: seq<byte>, c: nat)
    requires MoveEnabled(s, move) && CarriesCap(Around(move), owner, purpose, c)
    ensures var t := Surround(s, move);
      && (forall q :: q in s.procs ==> q in t.procs && t.procs[q] == s.procs[q])
      && (forall q :: q in t.procs && q !in s.procs ==> PhaseCapped(t, t.procs[q].phase, owner, purpose, c))
  {
  }

  lemma CalmCaps(s: State, t: State, p: nat, owner: seq<byte>, purpose: seq<byte>, c: nat)
    requires Capped(s, owner, purpose, c) && OneMoves(s, t, p) && s.now <= t.now
    requires Calm(s.store.rows, s.now, t.store.rows, t.now, owner, purpose)
    requires PhaseCapped(t, t.procs[p].phase, owner, purpose, c)
    ensures Capped(t, owner, purpose, c)
  {
    SubsetSize(Now(t, owner, purpose), Now(s, owner, purpose));
    forall q | q in t.procs ensures PhaseCapped(t, t.procs[q].phase, owner, purpose, c) {
      if q != p { FrameCapped(s, t, s.procs[q].phase, owner, purpose, c); }
    }
  }

  lemma MoveCaps(s: State, move: Move, owner: seq<byte>, purpose: seq<byte>, c: nat)
    requires Inv(s) && Capped(s, owner, purpose, c) && MoveEnabled(s, move)
    requires CarriesCap(Around(move), owner, purpose, c)
    ensures Capped(Surround(s, move), owner, purpose, c)
  {
    hide Inv;
    OnlySubmitsRaise(s, Around(move), owner, purpose);
    MoveBrings(s, move, owner, purpose, c);
    var t := Surround(s, move);
    hide Surround;
    forall q | q in t.procs ensures PhaseCapped(t, t.procs[q].phase, owner, purpose, c) {
      if q in s.procs { FrameCapped(s, t, s.procs[q].phase, owner, purpose, c); }
    }
  }

  /** Two submits of one owner are never in their transactions at once. */
  lemma OneAdmission(s: State, p: nat, q: nat)
    requires Inv(s) && In(s, p) && In(s, q) && PhaseOf(s, p).Admitting? && PhaseOf(s, q).Admitting?
    requires PhaseOf(s, p).row.key.owner == PhaseOf(s, q).row.key.owner
    ensures p == q
  {
    hide Inv;
    Standing(s, p);
    Standing(s, q);
  }

  lemma CommitSubmitCaps(s: State, p: nat, owner: seq<byte>, purpose: seq<byte>, c: nat)
    requires Inv(s) && Capped(s, owner, purpose, c) && In(s, p) && PhaseOf(s, p).Admitting? && PhaseOf(s, p).counted
    ensures Capped(ApplyCommitSubmit(s, p), owner, purpose, c)
  {
    hide Inv;
    var t := ApplyCommitSubmit(s, p);
    var row := PhaseOf(s, p).row;
    assert PhaseCapped(s, PhaseOf(s, p), owner, purpose, c);
    if For(row.key, owner, purpose) {
      forall q | q in t.procs ensures PhaseCapped(t, t.procs[q].phase, owner, purpose, c) {
        if q != p {
          assert PhaseCapped(s, s.procs[q].phase, owner, purpose, c);
          if s.procs[q].phase.Admitting? && s.procs[q].phase.row.key.owner == owner { OneAdmission(s, p, q); }
        }
      }
    } else {
      CalmCaps(s, t, p, owner, purpose, c);
    }
  }

  lemma StepCaps(s: State, step: Step, owner: seq<byte>, purpose: seq<byte>, c: nat)
    requires Inv(s) && Capped(s, owner, purpose, c) && Enabled(s, step) && CarriesCap(step, owner, purpose, c)
    ensures Capped(Apply(s, step), owner, purpose, c)
  {
    hide Inv, Capped;
    if AddsRow(step) {
      CommitSubmitCaps(s, step.p, owner, purpose, c);
    } else {
      OnlySubmitsRaise(s, step, owner, purpose);
      match step
      case Around(move) => MoveCaps(s, move, owner, purpose, c);
      case Leaves(p) => CalmCaps(s, Apply(s, step), p, owner, purpose, c);
      case Submits(p, action) =>
        SubmitActionMoves(s, p, action);
        SubmitCaps(s, p, action, owner, purpose, c);
        CalmCaps(s, ActSubmit(s, p, action), p, owner, purpose, c);
      case Records(p, action) =>
        RecordActionMoves(s, p, action);
        RecordLeavesSubmit(s, p, action);
        CalmCaps(s, ActRecord(s, p, action), p, owner, purpose, c);
      case Checks(p, action) =>
        CheckActionMoves(s, p, action);
        CheckLeavesSubmit(s, p, action);
        CalmCaps(s, ActCheck(s, p, action), p, owner, purpose, c);
    }
  }

  lemma {:induction false} RunCaps(s: State, steps: seq<Step>, owner: seq<byte>, purpose: seq<byte>, c: nat)
    requires Inv(s) && Capped(s, owner, purpose, c) && ValidRun(s, steps)
    requires forall i :: 0 <= i < |steps| ==> CarriesCap(steps[i], owner, purpose, c)
    ensures Capped(Final(s, steps), owner, purpose, c)
    decreases |steps|
  {
    if steps != [] {
      StepKeeps(s, steps[0]);
      StepCaps(s, steps[0], owner, purpose, c);
      RunCaps(Apply(s, steps[0]), steps[1..], owner, purpose, c);
    }
  }

  // ---------- the calls that run ----------

  /** The call has not ended, and its generation is in flight, or failed as unknown a quarter of an hour ago at most. */
  ghost predicate Draws(s: State, call: CallId, owner: seq<byte>, purpose: seq<byte>) {
    && call in s.ops && !Ended(s, call)
    && s.ops[call].gen in s.store.rows
    && var r := s.store.rows[s.ops[call].gen];
    && r.key.owner == owner && r.key.purpose == purpose
    && (|| r.status == Pending || r.status == Running
        || (r.outcomeUnknownAt.Some? && r.outcomeUnknownAt.value > s.now - 15 * MINUTE))
  }

  /** Different calls are different generations'. */
  lemma {:induction false} CallsWithin(s: State, calls: set<CallId>, gens: set<GenId>)
    requires Inv(s) && forall c :: c in calls ==> c in s.ops && s.ops[c].gen in gens
    ensures |calls| <= |gens|
    decreases |calls|
  {
    hide Inv;
    if calls != {} {
      var c :| c in calls;
      forall d | d in calls - {c} ensures s.ops[d].gen in gens - {s.ops[c].gen} {
        if s.ops[d].gen == s.ops[c].gen { OneCallHere(s, c, d); }
      }
      CallsWithin(s, calls - {c}, gens - {s.ops[c].gen});
    }
  }

  /** The bound is one on calls: of an owner's calls for the purpose, no more than `c` run at once whose generations are in
    * flight or within their hold. */
  lemma RunningCallsBounded(s0: State, steps: seq<Step>, owner: seq<byte>, purpose: seq<byte>, c: nat, calls: set<CallId>)
    requires Init(s0) && ValidRun(s0, steps) && |Now(s0, owner, purpose)| <= c
    requires forall i :: 0 <= i < |steps| ==> CarriesCap(steps[i], owner, purpose, c)
    requires forall x :: x in calls ==> Draws(Final(s0, steps), x, owner, purpose)
    ensures |calls| <= c
  {
    var s := Final(s0, steps);
    LiveBounded(s0, steps, owner, purpose, c);
    InitHolds(s0);
    RunKeeps(s0, steps);
    hide Inv;
    forall x | x in calls ensures x in s.ops && s.ops[x].gen in Now(s, owner, purpose) {
      LiveExactly(s.store.rows, owner, purpose, s.now, s.ops[x].gen);
    }
    CallsWithin(s, calls, Now(s, owner, purpose));
  }

  /** And a call that still runs has its generation in flight, unless that was given up: as unknown, or because its call was
    * gone or its answer never fit. */
  lemma RunningCallStands(s0: State, steps: seq<Step>, call: CallId)
    requires Init(s0) && ValidRun(s0, steps)
    requires call in Final(s0, steps).ops && !Ended(Final(s0, steps), call)
    ensures var s := Final(s0, steps);
      && Known(s, s.ops[call].gen)
      && var r := RowOf(s, s.ops[call].gen);
      && (r.Unsettled() || r.failure == Some(OutcomeUnknown) || r.failure == Some(ProviderFailed))
      && r.error != Some(Reason.CallFailed) && r.error != Some(Overdue)
  {
    InitHolds(s0);
    RunKeeps(s0, steps);
    var s := Final(s0, steps);
    AcceptedCallIsTracked(s, call);
    hide Inv;
    RowStanding(s, s.ops[call].gen);
    var r := RowOf(s, s.ops[call].gen);
    if r.failure.Some? {
      match r.failure.value
      case Rejected =>
      case ProviderFailed =>
      case NotStarted =>
      case OutcomeUnknown =>
    }
  }

  /** When every submit of an owner and purpose carries a concurrency of at most `c`, no more than `c` of its
    * generations are ever live at once, held unknown outcomes included, however its submits interleave. */
  lemma LiveBounded(s0: State, steps: seq<Step>, owner: seq<byte>, purpose: seq<byte>, c: nat)
    requires Init(s0) && ValidRun(s0, steps) && |Now(s0, owner, purpose)| <= c
    requires forall i :: 0 <= i < |steps| ==> CarriesCap(steps[i], owner, purpose, c)
    ensures |Now(Final(s0, steps), owner, purpose)| <= c
  {
    InitHolds(s0);
    RunCaps(s0, steps, owner, purpose, c);
  }
}
