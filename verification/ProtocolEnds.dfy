/** A check that hears of its call's end settles the generation with it: with that end, its answer and its usage. */
module ProtocolEnds {
  import opened Types
  import opened Check
  import opened Protocol
  import opened ProtocolInvariant
  import opened ProtocolSafety
  import opened ProtocolSteps
  import opened ProtocolHistory
  import opened ProtocolCancel
  import opened ProtocolSettles
  import Outcomes
  import S = Store

  // ---------- what one answer does ----------

  /** The status, the class and the account that an ended call leaves, as its owner cancelled it or not. */
  function EndStatus(call: Call, cancelled: bool): (Status, Option<Failure>, Option<Reason>) {
    if call.state == CallSucceeded then (Succeeded, None, None)
    else if call.state == CallCancelled && cancelled then (Cancelled, None, Some(OwnerCancelled))
    else (Failed, Some(ProviderFailed), Some(if call.state == CallCancelled then Overdue else Reason.CallFailed))
  }

  ghost predicate CommitsEnd(a: Phase, read: Snapshot, call: Call, cancelled: bool) {
    && a.Committing? && a.read == read && a.answered
    && a.plan.response == call.response && a.plan.usage == call.usage
    && (a.plan.status, a.plan.failure, a.plan.error) == EndStatus(call, cancelled)
  }

  /** An ended call is settled as it ended. One cancelled that this check saw nobody stop waits for its label. */
  lemma HearsEnd(s: State, p: nat, reply: Reply)
    requires In(s, p) && PhaseOf(s, p).Awaiting? && Observable(PhaseOf(s, p).read)
    requires reply.Told? && Outcomes.Ends(reply.call)
    ensures var Awaiting(read, since) := PhaseOf(s, p);
      var t := ApplyHear(s, p, reply);
      && t == At(s, p, t.procs[p].phase)
      && if reply.call.state == CallCancelled && read.row.cancelRequestedAt.None? && since.None?
         then t.procs[p].phase == Relabelling(read, reply.call)
         else CommitsEnd(t.procs[p].phase, read, reply.call, read.row.cancelRequestedAt.Some?)
  {
  }

  /** The row is left alone exactly while its call is pending, and no stop is due. */
  lemma HearsPending(s: State, p: nat, reply: Reply)
    requires In(s, p) && PhaseOf(s, p).Awaiting? && Observable(PhaseOf(s, p).read)
    ensures var Awaiting(read, since) := PhaseOf(s, p);
      var stuck := since.None? && Outcomes.Stuck(read, reply, read.at - read.row.startRequestedAt.value);
      var t := ApplyHear(s, p, reply);
      && (t.procs[p].phase.Returned? <==> Outcomes.Pending(reply, since, read.at) && !stuck)
      && (stuck ==> t.procs[p].phase == Awaiting(read, Some(read.row.startRequestedAt.value + 5 * MINUTE))
                    && read.row.callId.value in t.stops)
  {
  }

  /** A call out of reach fails its generation: as unknown, unless the provider no longer holds it. */
  lemma HearsOutOfReach(s: State, p: nat, reply: Reply)
    requires In(s, p) && PhaseOf(s, p).Awaiting? && Observable(PhaseOf(s, p).read)
    requires !(reply.Told? && Outcomes.Ends(reply.call))
    requires var Awaiting(read, since) := PhaseOf(s, p);
      && !Outcomes.Pending(reply, since, read.at)
      && !(since.None? && Outcomes.Stuck(read, reply, read.at - read.row.startRequestedAt.value))
    ensures var a := ApplyHear(s, p, reply).procs[p].phase;
      && a.Committing? && a.read == PhaseOf(s, p).read && a.plan.response.None? && a.plan.usage.None?
      && a.plan.status == Failed && a.plan.failure == Some(if reply.Lost? then ProviderFailed else OutcomeUnknown)
  {
  }

  lemma LabelsEnd(s: State, p: nat)
    requires In(s, p) && PhaseOf(s, p).Relabelling? && PhaseOf(s, p).answer.state == CallCancelled
    requires s.procs[p].gen in s.store.rows
    ensures CommitsEnd(AfterLabel(s, s.procs[p]), PhaseOf(s, p).read, PhaseOf(s, p).answer,
                       s.store.rows[s.procs[p].gen].cancelRequestedAt.Some?)
  {
  }

  /** A commit of the end, while the row is unsettled and can hold it, records it whole. */
  lemma CommitsWhole(s: State, p: nat, read: Snapshot, call: Call, cancelled: bool)
    requires Inv(s) && In(s, p) && CommitsEnd(PhaseOf(s, p), read, call, cancelled) && read.row.callId.Some?
    requires s.procs[p].gen in s.store.rows && s.store.rows[s.procs[p].gen].Unsettled()
    requires Outcomes.Holdable(s.store, s.procs[p].gen, call)
    ensures var t := ApplyCommit(s, p, true);
      t.procs[p].phase.Returned? && Outcomes.EndRecorded(s.store, t.store, read, call, cancelled, s.now)
  {
    hide Inv;
    Standing(s, p);
    RowStanding(s, s.procs[p].gen);
  }

  /** The check once its label, if it needs one, is read. */
  function Labelled(s: State, p: nat): State
    requires In(s, p)
  {
    if PhaseOf(s, p).Relabelling? then At(s, p, AfterLabel(s, s.procs[p])) else s
  }

  /** With nobody in between, the check that hears of the end leaves it on record, with its answer and its usage. A call
    * cancelled is its owner's doing by the mark on the row as it stands, unless this check wanted it stopped: then by the
    * mark it read. */
  lemma EndIsRecorded(s: State, p: nat, reply: Reply)
    requires Inv(s) && In(s, p) && PhaseOf(s, p).Awaiting? && Observable(PhaseOf(s, p).read)
    requires Plausible(s, PhaseOf(s, p).read.row.callId.value, reply) && reply.Told? && Outcomes.Ends(reply.call)
    requires s.procs[p].gen in s.store.rows && s.store.rows[s.procs[p].gen].Unsettled()
    requires Outcomes.Holdable(s.store, s.procs[p].gen, reply.call)
    ensures In(ApplyHear(s, p, reply), p)
    ensures var u := Labelled(ApplyHear(s, p, reply), p);
      && In(u, p) && PhaseOf(u, p).Committing?
      && Outcomes.EndRecorded(s.store, ApplyCommit(u, p, true).store, PhaseOf(s, p).read, reply.call,
           PhaseOf(s, p).read.row.cancelRequestedAt.Some?
           || (PhaseOf(s, p).since.None? && s.store.rows[s.procs[p].gen].cancelRequestedAt.Some?), s.now)
  {
    hide Inv, Outcomes.EndRecorded, ApplyHear, ApplyCommit, AfterLabel, Outcomes.Holdable, Plausible;
    HearsEnd(s, p, reply);
    HearKeeps(s, p, reply);
    var read := PhaseOf(s, p).read;
    var t := ApplyHear(s, p, reply);
    if PhaseOf(t, p).Relabelling? {
      LabelsEnd(t, p);
      ReadLabelKeeps(t, p);
      CommitsWhole(Labelled(t, p), p, read, reply.call, s.store.rows[s.procs[p].gen].cancelRequestedAt.Some?);
    } else {
      CommitsWhole(t, p, read, reply.call, read.row.cancelRequestedAt.Some?
        || (PhaseOf(s, p).since.None? && s.store.rows[s.procs[p].gen].cancelRequestedAt.Some?));
    }
  }

  // ---------- whatever others do meanwhile ----------

  /** The values of the end are ones that the tables hold. */
  predicate Storable(call: Call) {
    Outcomes.Holdable(S.Store(map[], map[], map[]), 0, call)
  }

  /** How many of its own turns a check that heard of an end has left, at most. Zero: it is not one. */
  function EndRank(a: Phase): nat {
    match a
    case Relabelling(read, answer) => if Observable(read) && Storable(answer) then 2 else 0
    case Committing(read, plan, answered) =>
      if answered && Observable(read) && Storable(Call(CallSucceeded, plan.response, plan.usage)) then 1 else 0
    case _ => 0
  }

  lemma EndIsRanked(s: State, p: nat, reply: Reply)
    requires In(s, p) && PhaseOf(s, p).Awaiting? && Observable(PhaseOf(s, p).read)
    requires reply.Told? && Outcomes.Ends(reply.call) && Storable(reply.call)
    ensures In(ApplyHear(s, p, reply), p) && 1 <= EndRank(PhaseOf(ApplyHear(s, p, reply), p)) <= 2
  {
    HearsEnd(s, p, reply);
    hide ApplyHear;
  }

  lemma LabelNears(s: State, p: nat)
    requires Inv(s) && In(s, p) && PhaseOf(s, p).Relabelling? && EndRank(PhaseOf(s, p)) > 0
    ensures EndRank(AfterLabel(s, s.procs[p])) == 1 || Settled(s, s.procs[p].gen)
  {
    hide Inv;
    Standing(s, p);
    RowStanding(s, s.procs[p].gen);
  }

  lemma EndCommitSettles(s: State, p: nat)
    requires Inv(s) && In(s, p) && PhaseOf(s, p).Committing? && EndRank(PhaseOf(s, p)) > 0
    ensures Settled(ApplyCommit(s, p, true), s.procs[p].gen)
  {
    hide Inv;
    Standing(s, p);
    RowStanding(s, s.procs[p].gen);
    if s.procs[p].gen in s.store.rows && s.store.rows[s.procs[p].gen].Unsettled() {
      AttemptStanding(s, s.procs[p].gen);
    }
  }

  lemma CheckNears(s: State, p: nat, action: CheckAction)
    requires Inv(s) && CheckEnabled(s, p, action) && EndRank(PhaseOf(s, p)) > 0 && action != CommitCheck(false)
    ensures var t := ActCheck(s, p, action);
      && In(t, p)
      && (Settled(t, s.procs[p].gen) || 0 < EndRank(PhaseOf(t, p)) < EndRank(PhaseOf(s, p)))
  {
    hide Inv;
    CheckActionMoves(s, p, action);
    match action
    case ReadLabel => LabelNears(s, p);
    case CommitCheck(answers) => EndCommitSettles(s, p);
    case _ =>
  }

  lemma StepNears(s: State, step: Step, p: nat)
    requires Inv(s) && Enabled(s, step) && In(s, p) && EndRank(PhaseOf(s, p)) > 0 && !Breaks(step, p)
    ensures var t := Apply(s, step);
      && In(t, p) && t.procs[p].gen == s.procs[p].gen
      && (Settled(t, s.procs[p].gen)
          || (if Moves(step, p) then 0 < EndRank(PhaseOf(t, p)) < EndRank(PhaseOf(s, p)) else PhaseOf(t, p) == PhaseOf(s, p)))
  {
    hide Inv, Settled, Storable;
    match step
    case Around(move) => MoveBegins(s, move);
    case Leaves(q) =>
    case Submits(q, action) => SubmitActionMoves(s, q, action); hide ActSubmit;
    case Records(q, action) => RecordActionMoves(s, q, action); hide ActRecord;
    case Checks(q, action) =>
      CheckActionMoves(s, q, action);
      if q == p { CheckNears(s, p, action); }
      hide ActCheck;
  }

  lemma SettledStays(s: State, steps: seq<Step>, g: GenId)
    requires Inv(s) && ValidRun(s, steps) && Settled(s, g)
    ensures Settled(Final(s, steps), g)
  {
    hide Inv, Apply, Enabled;
    RunGrows(s, steps);
  }

  /** A check that heard of its call's end, with values the tables hold, settles the generation in two turns of its own at
    * most, whatever every other process does meanwhile, unless it dies first. */
  lemma {:induction false} HeardEndSettles(s: State, steps: seq<Step>, p: nat)
    requires Inv(s) && ValidRun(s, steps) && In(s, p) && EndRank(PhaseOf(s, p)) > 0
    requires forall i :: 0 <= i < |steps| ==> !Breaks(steps[i], p)
    ensures Settled(Final(s, steps), s.procs[p].gen) || Turns(steps, p) < EndRank(PhaseOf(s, p)) <= 2
    decreases |steps|
  {
    hide Inv, Apply, Enabled, Moves, Breaks, Settled, Storable;
    if steps != [] {
      var t := Apply(s, steps[0]);
      StepNears(s, steps[0], p);
      StepKeeps(s, steps[0]);
      assert forall i :: 0 <= i < |steps[1..]| ==> steps[1..][i] == steps[i + 1];
      if Settled(t, s.procs[p].gen) {
        SettledStays(t, steps[1..], s.procs[p].gen);
      } else {
        HeardEndSettles(t, steps[1..], p);
      }
    }
  }
}
