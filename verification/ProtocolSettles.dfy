/** A check that reads a call past its ceiling, or a start long without one, settles it whatever is answered or refused. */
module ProtocolSettles {
  import opened Types
  import opened Check
  import opened Protocol
  import opened ProtocolInvariant
  import opened ProtocolSafety
  import opened ProtocolSteps
  import opened ProtocolHistory
  import opened ProtocolCancel
  import S = Store

  /** How many of its own steps a check that gives its call up has left, at most. Zero: it is not one. */
  function Rank(a: Phase): nat {
    match a
    case Checking(read) => if Overdue(read) then 5 else if OldIntent(read) then 2 else 0
    case Observing(read) => if Overdue(read) then 4 else 0
    case Awaiting(read, since) => if Overdue(read) && since.Some? && since == StopSince(read) then 3 else 0
    case Committing(read, plan, answered) =>
      if Overdue(read) then (if answered then 2 else 1)
      else if OldIntent(read) && plan.response.None? && plan.usage.None? then 1 else 0
    case _ => 0
  }

  /** The read of a recorded call at an age past the run ceiling and the stop retry window together. */
  predicate Overdue(read: Snapshot) {
    Observable(read) && PastGivingUp(read)
  }

  /** The read of a start that recorded no call three minutes on, or of a generation that never started. */
  predicate OldIntent(read: Snapshot) {
    && read.row.Unsettled() && read.row.callId.None?
    && (read.row.startRequestedAt.Some? ==> Age(read) >= START_OUTCOME_UNKNOWN_AFTER)
  }

  predicate Carries(a: Phase)
    requires Rank(a) > 0
  {
    a.read.row.callId.Some?
  }

  /** Settled, or, where the check read no call id, recorded since: it is then a running call's generation. */
  ghost predicate Over(s: State, g: GenId, carried: bool) {
    Settled(s, g) || (!carried && Known(s, g) && RowOf(s, g).callId.Some?)
  }

  /** A step in which the process ended without an answer, by a crash or an error. */
  predicate Breaks(step: Step, p: nat) {
    step == Leaves(p) || (step.Checks? && step.p == p && step.check == CommitCheck(false))
  }

  predicate Moves(step: Step, p: nat) {
    (step.Submits? || step.Records? || step.Checks?) && step.p == p
  }

  /** The next phase is still the check's, with fewer turns left. */
  ghost predicate Nearer(a: Phase, b: Phase) {
    0 < Rank(b) < Rank(a) && Carries(b) == Carries(a)
  }

  lemma RouteGivesUp(s: State, p: nat)
    requires Inv(s) && In(s, p) && PhaseOf(s, p).Checking? && Rank(PhaseOf(s, p)) > 0
    ensures Nearer(PhaseOf(s, p), AfterRoute(PhaseOf(s, p).read)) || Settled(s, s.procs[p].gen)
  {
    hide Inv;
    Standing(s, p);
  }

  lemma AskGivesUp(s: State, p: nat, served: bool)
    requires In(s, p) && PhaseOf(s, p).Observing? && Rank(PhaseOf(s, p)) > 0
    ensures Nearer(PhaseOf(s, p), ApplyAsk(s, p, served).procs[p].phase)
  {
    PastGivingUpNeverKeeps(PhaseOf(s, p).read, Transient);
  }

  lemma HearGivesUp(s: State, p: nat, reply: Reply)
    requires In(s, p) && PhaseOf(s, p).Awaiting? && Rank(PhaseOf(s, p)) > 0
    ensures Nearer(PhaseOf(s, p), ApplyHear(s, p, reply).procs[p].phase)
  {
    PastGivingUpNeverKeeps(PhaseOf(s, p).read, reply);
  }

  /** The last resort writes no answer, so nothing is left to refuse. */
  lemma BareCommitStored(s: State, p: nat)
    requires Inv(s) && In(s, p) && PhaseOf(s, p).Committing? && Rank(PhaseOf(s, p)) == 1
    ensures !ApplyCommit(s, p, true).procs[p].phase.Gone? && !ApplyCommit(s, p, true).procs[p].phase.Committing?
  {
    hide Inv;
    Standing(s, p);
  }

  /** A settle that lands settles the row. One that changes nothing found it settled, or recorded since its read. */
  lemma IntentCommitSettles(s: State, p: nat)
    requires Inv(s) && In(s, p) && PhaseOf(s, p).Committing? && PhaseOf(s, p).read.row.callId.None?
    ensures var t := ApplyCommit(s, p, true);
      t.procs[p].phase.Gone? || t.procs[p].phase.Committing? || Over(t, s.procs[p].gen, false)
  {
    hide Inv;
    Standing(s, p);
    RowStanding(s, s.procs[p].gen);
  }

  lemma CommitGivesUp(s: State, p: nat)
    requires Inv(s) && In(s, p) && PhaseOf(s, p).Committing? && Rank(PhaseOf(s, p)) > 0
    ensures var t := ApplyCommit(s, p, true);
      Nearer(PhaseOf(s, p), t.procs[p].phase) || Over(t, s.procs[p].gen, Carries(PhaseOf(s, p)))
  {
    hide Inv;
    if PhaseOf(s, p).read.row.callId.Some? { CommitSettles(s, p); } else { IntentCommitSettles(s, p); }
    CommitLeaves(s, p, true);
    if Rank(PhaseOf(s, p)) == 1 { BareCommitStored(s, p); } else { RefusedFallsBack(s, p); }
  }

  /** A refused answer of an overdue call makes way for the bare failure. */
  lemma RefusedFallsBack(s: State, p: nat)
    requires In(s, p) && PhaseOf(s, p).Committing? && PhaseOf(s, p).answered && PastGivingUp(PhaseOf(s, p).read)
    ensures var a := ApplyCommit(s, p, true).procs[p].phase;
      !a.Gone? && (a.Committing? ==> a == Committing(PhaseOf(s, p).read, UNRECORDED, false))
  {
    hide S.Commit;
  }

  lemma CheckGivesUp(s: State, p: nat, action: CheckAction)
    requires Inv(s) && CheckEnabled(s, p, action) && Rank(PhaseOf(s, p)) > 0 && action != CommitCheck(false)
    ensures var t := ActCheck(s, p, action);
      && In(t, p)
      && (Over(t, s.procs[p].gen, Carries(PhaseOf(s, p))) || Nearer(PhaseOf(s, p), PhaseOf(t, p)))
  {
    hide Inv;
    CheckActionMoves(s, p, action);
    match action
    case RouteCheck => RouteGivesUp(s, p);
    case Ask(served) => AskGivesUp(s, p, served);
    case Hear(reply) => HearGivesUp(s, p, reply);
    case CommitCheck(answers) => CommitGivesUp(s, p);
    case _ =>
  }

  lemma StepGivesUp(s: State, step: Step, p: nat)
    requires Inv(s) && Enabled(s, step) && In(s, p) && Rank(PhaseOf(s, p)) > 0 && !Breaks(step, p)
    ensures var t := Apply(s, step);
      && In(t, p) && t.procs[p].gen == s.procs[p].gen
      && (Over(t, s.procs[p].gen, Carries(PhaseOf(s, p)))
          || (if Moves(step, p) then Nearer(PhaseOf(s, p), PhaseOf(t, p)) else PhaseOf(t, p) == PhaseOf(s, p)))
  {
    hide Inv, Rank, Over;
    match step
    case Around(move) => MoveBegins(s, move);
    case Leaves(q) =>
    case Submits(q, action) => SubmitActionMoves(s, q, action); NotSubmits(s, p, action);
    case Records(q, action) => RecordActionMoves(s, q, action); NotRecords(s, p, action);
    case Checks(q, action) =>
      CheckActionMoves(s, q, action);
      if q == p { CheckGivesUp(s, p, action); }
  }

  lemma NotSubmits(s: State, p: nat, action: SubmitAction)
    requires In(s, p) && Rank(PhaseOf(s, p)) > 0
    ensures !SubmitEnabled(s, p, action)
  {
  }

  lemma NotRecords(s: State, p: nat, action: RecordAction)
    requires In(s, p) && Rank(PhaseOf(s, p)) > 0
    ensures !RecordEnabled(s, p, action)
  {
  }

  ghost function Turns(steps: seq<Step>, p: nat): nat {
    if steps == [] then 0 else (if Moves(steps[0], p) then 1 else 0) + Turns(steps[1..], p)
  }

  /** What is over stays over. */
  lemma OverStays(s: State, steps: seq<Step>, g: GenId, carried: bool)
    requires Inv(s) && ValidRun(s, steps) && Over(s, g, carried)
    ensures Over(Final(s, steps), g, carried)
  {
    hide Inv, Apply, Enabled;
    RunGrows(s, steps);
  }

  /** A check that read a call past its ceiling, or an old intent, settles its generation within as many of its own
    * turns as its rank, whatever the provider answers, the database refuses and every other process does meanwhile,
    * unless it dies first. An intent it settles nothing of was recorded since. */
  lemma {:induction false} OverdueSettles(s: State, steps: seq<Step>, p: nat)
    requires Inv(s) && ValidRun(s, steps) && In(s, p) && Rank(PhaseOf(s, p)) > 0
    requires forall i :: 0 <= i < |steps| ==> !Breaks(steps[i], p)
    ensures Over(Final(s, steps), s.procs[p].gen, Carries(PhaseOf(s, p))) || Turns(steps, p) < Rank(PhaseOf(s, p))
    decreases |steps|
  {
    hide Inv, Apply, Enabled, Rank, Moves, Breaks, Over;
    if steps != [] {
      var t := Apply(s, steps[0]);
      StepGivesUp(s, steps[0], p);
      StepKeeps(s, steps[0]);
      assert forall i :: 0 <= i < |steps[1..]| ==> steps[1..][i] == steps[i + 1];
      if Over(t, s.procs[p].gen, Carries(PhaseOf(s, p))) {
        OverStays(t, steps[1..], s.procs[p].gen, Carries(PhaseOf(s, p)));
      } else {
        OverdueSettles(t, steps[1..], p);
      }
    }
  }

  /** A check that gives its call up always has a turn to take: the provider's answer, or its silence, moves it on. */
  lemma TurnIsThere(s: State, p: nat) returns (action: CheckAction)
    requires Inv(s) && In(s, p) && Rank(PhaseOf(s, p)) > 0
    ensures Enabled(s, Checks(p, action)) && Moves(Checks(p, action), p) && !Breaks(Checks(p, action), p)
  {
    action := match PhaseOf(s, p)
      case Checking(_) => RouteCheck
      case Observing(_) => Ask(true)
      case Awaiting(_, _) => Hear(Transient)
      case _ => CommitCheck(true);
  }

  /** Every check that begins on such a row is one of them. */
  lemma ReadsOverdue(s: State, p: nat, g: GenId)
    requires Inv(s) && MoveEnabled(s, BeginCheck(p, g))
    requires var r := s.store.rows[g];
      && r.Unsettled()
      && (r.startRequestedAt.Some? ==>
            s.now - r.startRequestedAt.value >=
              if r.callId.Some? then RUN_CEILING + STOP_RETRY_WINDOW else START_OUTCOME_UNKNOWN_AFTER)
    ensures var t := Surround(s, BeginCheck(p, g)); 0 < Rank(PhaseOf(t, p)) <= 5
  {
    hide Inv;
    RowStanding(s, g);
  }
}
