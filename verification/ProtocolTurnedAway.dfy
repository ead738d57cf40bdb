/** A submit that replays a generation or is refused leaves nothing behind: no row, no request and no call, then or ever. */
module ProtocolTurnedAway {
  import opened Types
  import opened Protocol
  import opened ProtocolInvariant
  import opened ProtocolSafety
  import opened ProtocolSteps
  import opened ProtocolHistory
  import opened ProtocolCancel
  import opened ProtocolLive
  import S = Store

  /** The submit ended, and the generation it would have created was never recorded. */
  ghost predicate Barren(s: State, p: nat) {
    && In(s, p) && s.procs[p].role == Submitter
    && (s.procs[p].phase.Returned? || s.procs[p].phase.Gone?)
    && !Known(s, s.procs[p].gen)
  }

  /** Only a submit's own commit makes its generation known. */
  lemma StepTeaches(s: State, step: Step, g: GenId)
    requires Inv(s) && Enabled(s, step) && !Known(s, g) && Known(Apply(s, step), g)
    ensures AddsRow(step) && In(s, step.p) && PhaseOf(s, step.p).Admitting? && s.procs[step.p].gen == g
    ensures s.procs[step.p].role == Submitter
  {
    hide Inv;
    match step
    case Around(move) => MoveAddsNone(s, move);
    case Leaves(p) =>
    case Submits(p, action) =>
      Standing(s, p);
      if !action.CommitSubmit? { SubmitAddsNone(s, p, action); }
    case Records(p, action) => RecordAddsNone(s, p, action);
    case Checks(p, action) => CheckAddsNone(s, p, action);
  }

  lemma EndedStays(s: State, step: Step, p: nat)
    requires Enabled(s, step) && In(s, p) && (s.procs[p].phase.Returned? || s.procs[p].phase.Gone?)
    ensures var t := Apply(s, step);
      && In(t, p) && t.procs[p].role == s.procs[p].role && t.procs[p].gen == s.procs[p].gen
      && (t.procs[p].phase.Returned? || t.procs[p].phase.Gone?)
  {
    match step
    case Around(move) => MoveBegins(s, move);
    case Leaves(q) =>
    case Submits(q, action) => SubmitActionMoves(s, q, action); hide ActSubmit;
    case Records(q, action) => RecordActionMoves(s, q, action); hide ActRecord;
    case Checks(q, action) => CheckActionMoves(s, q, action); hide ActCheck;
  }

  /** A minted id belongs to one submit, so no other commits the generation. */
  lemma NotTaught(s: State, step: Step, p: nat)
    requires Inv(s) && Enabled(s, step) && Barren(s, p)
    ensures !Known(Apply(s, step), s.procs[p].gen)
  {
    if Known(Apply(s, step), s.procs[p].gen) { StepTeaches(s, step, s.procs[p].gen); }
  }

  lemma StepBarren(s: State, step: Step, p: nat)
    requires Inv(s) && Enabled(s, step) && Barren(s, p)
    ensures Barren(Apply(s, step), p) && Apply(s, step).procs[p].gen == s.procs[p].gen
  {
    EndedStays(s, step, p);
    NotTaught(s, step, p);
  }

  lemma {:induction false} RunBarren(s: State, steps: seq<Step>, p: nat)
    requires Inv(s) && ValidRun(s, steps) && Barren(s, p)
    ensures Inv(Final(s, steps)) && Barren(Final(s, steps), p) && Final(s, steps).procs[p].gen == s.procs[p].gen
    decreases |steps|
  {
    if steps != [] {
      hide Inv, Apply, Enabled, Barren;
      StepKeeps(s, steps[0]);
      StepBarren(s, steps[0], p);
      RunBarren(Apply(s, steps[0]), steps[1..], p);
    }
  }

  /** A replay, at the insert, or a refusal, at the admission, ends the submit with nothing recorded. */
  lemma TurnedAwayIsBarren(s: State, p: nat, action: SubmitAction)
    requires Inv(s) && SubmitEnabled(s, p, action) && (action.Insert? || action.Admit?)
    requires In(ActSubmit(s, p, action), p) && ActSubmit(s, p, action).procs[p].phase.Returned?
    ensures Barren(ActSubmit(s, p, action), p) && ActSubmit(s, p, action).procs[p].gen == s.procs[p].gen
  {
    hide Inv;
    Standing(s, p);
    SubmitActionMoves(s, p, action);
    SubmitAddsNone(s, p, action);
    hide ActSubmit;
  }

  lemma BarrenHasNothing(s: State, p: nat)
    requires Inv(s) && Barren(s, p)
    ensures var g := s.procs[p].gen;
      && s.sends[g] == 0
      && (forall q :: q in s.requests ==> s.requests[q].gen != g)
      && (forall c :: c in s.ops ==> s.ops[c].gen != g)
  {
    forall c | c in s.ops ensures s.ops[c].gen != s.procs[p].gen { ProviderStanding(s, c); }
  }

  /** In every run, once a submit was answered by a replay or a refusal, the generation it would have created is never on
    * record, nothing was ever sent for it, and the provider never accepts a call of it. */
  lemma TurnedAwayLeavesNothing(s0: State, before: seq<Step>, p: nat, action: SubmitAction, after: seq<Step>)
    requires Init(s0) && ValidRun(s0, before)
    requires SubmitEnabled(Final(s0, before), p, action) && (action.Insert? || action.Admit?)
    requires var t := ActSubmit(Final(s0, before), p, action);
      In(t, p) && t.procs[p].phase.Returned? && ValidRun(t, after)
    ensures var u := Final(ActSubmit(Final(s0, before), p, action), after);
      var g := Final(s0, before).procs[p].gen;
      && !Known(u, g) && u.sends[g] == 0
      && (forall q :: q in u.requests ==> u.requests[q].gen != g)
      && (forall c :: c in u.ops ==> u.ops[c].gen != g)
  {
    hide Inv, ActSubmit, SubmitEnabled;
    InitHolds(s0);
    RunKeeps(s0, before);
    var s := Final(s0, before);
    SubmitKeeps(s, p, action);
    TurnedAwayIsBarren(s, p, action);
    RunBarren(ActSubmit(s, p, action), after, p);
    BarrenHasNothing(Final(ActSubmit(s, p, action), after), p);
  }
}
