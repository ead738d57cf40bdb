/** How far the timing carries: when exactly a request may leave, and how late everything may run before a start can be
  * settled as unknown under its own pen. */
module ProtocolFrozen {
  import opened Types
  import opened Check
  import opened Connector
  import opened Counting
  import opened Protocol
  import opened ProtocolInvariant
  import opened ProtocolTiming
  import RecordLoop
  import S = Store

  /** A run and one more step after it. */
  lemma {:induction false} RunThen(s: State, steps: seq<Step>, step: Step)
    requires ValidRun(s, steps) && Enabled(Final(s, steps), step)
    ensures ValidRun(s, steps + [step]) && Final(s, steps + [step]) == Apply(Final(s, steps), step)
    ensures TimelyRun(s, steps) && TimelyStep(Final(s, steps), step) ==> TimelyRun(s, steps + [step])
    decreases |steps|
  {
    hide Apply, Enabled;
    if steps == [] {
      assert [step][1..] == [] && [] + [step] == [step];
    } else {
      assert (steps + [step])[1..] == steps[1..] + [step];
      RunThen(Apply(s, steps[0]), steps[1..], step);
    }
  }

  const CALL: Call := Call(CallRunning, None, None)

  function Row(streamed: bool): Generation {
    S.NewRow(1, Identity([], [], [], streamed, [], 0), 0)
  }

  function Empty(slack: Time): State {
    State(0, UNKNOWN_OUTCOME_HOLD, slack, S.Store(map[], map[], map[]),
          map[], map[], {}, map[], multiset{}, map[], {}, {}, map[])
  }

  lemma StartsEmpty(slack: Time)
    ensures Init(Empty(slack))
  {
  }

  /** One submit of the intent recorded at instant zero stands in the phase, and nothing else happened. */
  ghost predicate Stands(s: State, slack: Time, streamed: bool, now: Time, phase: Phase) {
    && s.now == now && s.retention == UNKNOWN_OUTCOME_HOLD && s.slack == slack && s.late == {}
    && s.store == S.Store(map[1 := Row(streamed)], map[], map[])
    && s.procs == map[0 := Process(Submitter, 1, phase, None, None)]
  }

  /** One submit, up to its commit. */
  lemma Submitted(slack: Time, streamed: bool) returns (steps: seq<Step>)
    ensures ValidRun(Empty(slack), steps) && TimelyRun(Empty(slack), steps)
    ensures var s := Final(Empty(slack), steps);
      Stands(s, slack, streamed, 0, Ready(Row(streamed), 0)) && s.requests == map[] && s.ops == map[]
  {
    var s0, key := Empty(slack), Row(streamed).key;
    var s := s0;
    steps := [];
    var step := Around(BeginSubmit(0, 1, key, None));
    RunThen(s0, steps, step);
    steps, s := steps + [step], Apply(s, step);
    assert PhaseOf(s, 0) == Submitting(key, None, 0);
    step := Submits(0, Insert(0));
    RunThen(s0, steps, step);
    steps, s := steps + [step], Apply(s, step);
    assert PhaseOf(s, 0) == Admitting(Row(streamed), None, 0, 0, false);
    step := Submits(0, Admit(false));
    RunThen(s0, steps, step);
    steps, s := steps + [step], Apply(s, step);
    assert PhaseOf(s, 0) == Admitting(Row(streamed), None, 0, 0, true);
    step := Submits(0, CommitSubmit);
    RunThen(s0, steps, step);
    steps, s := steps + [step], Apply(s, step);
  }

  // ---------- when a request leaves ----------

  /** In some timely run a start begun at the intent's age `begun` sends its request at the intent's age `age`. */
  ghost predicate MayLeave(slack: Time, streamed: bool, begun: Time, age: Time) {
    exists s0, steps, p ::
      && Init(s0) && s0.slack == slack && ValidRun(s0, steps) && TimelyRun(s0, steps)
      && Leaving(Final(s0, steps), p, streamed, begun, age)
  }

  ghost predicate Leaving(s: State, p: nat, streamed: bool, begun: Time, age: Time) {
    && SubmitEnabled(s, p, Send)
    && var a := s.procs[p].phase;
       a.row.key.streamed == streamed && BegunAt(a) == begun && s.now - a.intentAt == age
  }

  /** A start begun at any age under twenty seconds, whose request leaves at any instant of its own timeout. */
  lemma SendReaches(slack: Time, streamed: bool, begun: Time, age: Time) returns (steps: seq<Step>)
    requires 0 <= begun < START_TIMEOUT && begun <= age <= begun + StartTimeout(streamed) + slack
    ensures ValidRun(Empty(slack), steps) && TimelyRun(Empty(slack), steps)
    ensures Leaving(Final(Empty(slack), steps), 0, streamed, begun, age)
  {
    hide Final, ValidRun, TimelyRun;
    var s0 := Empty(slack);
    steps := Submitted(slack, streamed);
    var s := Final(s0, steps);
    var step := Around(Tick(begun));
    RunThen(s0, steps, step);
    steps, s := steps + [step], Apply(s, step);
    assert PhaseOf(s, 0) == Ready(Row(streamed), 0);
    step := Submits(0, BeginStart(true));
    RunThen(s0, steps, step);
    steps, s := steps + [step], Apply(s, step);
    assert PhaseOf(s, 0) == Starting(Row(streamed), 0, false, begun + StartTimeout(streamed));
    step := Around(Tick(age));
    RunThen(s0, steps, step);
    steps, s := steps + [step], Apply(s, step);
  }

  /** One of them, with no slack at all: a timely start that leaves thirty-eight seconds after its intent. */
  lemma SendMayLeaveLate() returns (steps: seq<Step>)
    ensures Init(Empty(0)) && ValidRun(Empty(0), steps) && TimelyRun(Empty(0), steps)
    ensures var s := Final(Empty(0), steps);
      SubmitEnabled(s, 0, Send) && s.now - s.procs[0].phase.intentAt == 38 * SECOND && 38 * SECOND > START_TIMEOUT
  {
    StartsEmpty(0);
    hide Final, ValidRun, TimelyRun, Init;
    steps := SendReaches(0, false, 19 * SECOND, 38 * SECOND);
  }

  /** Exactly when a request may leave: from the instant its start begins, within twenty seconds of the intent, to the
    * end of the start's own timeout. */
  lemma LeavesExactly(slack: Time, streamed: bool, begun: Time, age: Time)
    requires Tolerable(slack)
    ensures MayLeave(slack, streamed, begun, age)
      <==> 0 <= begun < START_TIMEOUT && begun <= age <= begun + StartTimeout(streamed) + slack
  {
    if MayLeave(slack, streamed, begun, age) {
      var s0, steps, p :|
        && Init(s0) && s0.slack == slack && ValidRun(s0, steps) && TimelyRun(s0, steps)
        && Leaving(Final(s0, steps), p, streamed, begun, age);
      SendWindow(s0, steps, p);
    }
    if 0 <= begun < START_TIMEOUT && begun <= age <= begun + StartTimeout(streamed) + slack {
      var steps := SendReaches(slack, streamed, begun, age);
      StartsEmpty(slack);
    }
  }

  /** Exactly which starts leave within twenty seconds of their intent, whatever happens: what the guard knows of a start
    * is its age and its timeout, and the two together must fit. */
  lemma LeavesInTime(slack: Time, streamed: bool, begun: Time)
    requires Tolerable(slack) && 0 <= begun < START_TIMEOUT
    ensures (forall age :: MayLeave(slack, streamed, begun, age) ==> age <= START_TIMEOUT)
      <==> begun + StartTimeout(streamed) + slack <= START_TIMEOUT
  {
    LeavesExactly(slack, streamed, begun, begun + StartTimeout(streamed) + slack);
    forall age | MayLeave(slack, streamed, begun, age) ensures age <= begun + StartTimeout(streamed) + slack {
      LeavesExactly(slack, streamed, begun, age);
    }
  }

  // ---------- how much slack the three minutes leave ----------

  /** No generation is settled without the call id that something may still write. */
  ghost predicate NonePremature(s: State) {
    forall g :: Known(s, g) && MayRecord(s, g) ==> RowOf(s, g).Unsettled() || RowOf(s, g).callId.Some?
  }

  function WritingFrom(pause: Time, first: bool, begun: Time): Phase {
    Writing(Row(false), 0, 7, first, pause, begun + PERSISTENCE_TIMEOUT)
  }

  /** A start that the provider named its call to a minute on, and that is about to record it. */
  lemma Named(slack: Time) returns (steps: seq<Step>)
    requires slack >= 0
    ensures ValidRun(Empty(slack), steps) && (slack > SLACK_CEILING ==> TimelyRun(Empty(slack), steps))
    ensures var s := Final(Empty(slack), steps);
      && Stands(s, slack, false, 62 * SECOND, WritingFrom(RECORD_PAUSE, true, 62 * SECOND))
      && s.ops == map[7 := Operation(1, 0, CALL)]
  {
    hide Final, ValidRun, TimelyRun;
    var s0 := Empty(slack);
    steps := Sent(slack);
    var s := Final(s0, steps);
    var step := Around(ProviderAccepts(0, 7, CALL));
    RunThen(s0, steps, step);
    steps, s := steps + [step], Apply(s, step);
    assert PhaseOf(s, 0) == Starting(Row(false), 0, true, 39 * SECOND) && s.requests == map[0 := Request(1, Accepted(7))];
    step := Around(Tick(62 * SECOND));
    RunThen(s0, steps, step);
    steps, s := steps + [step], Apply(s, step);
    assert PhaseOf(s, 0) == Starting(Row(false), 0, true, 39 * SECOND);
    step := Submits(0, StartNames);
    RunThen(s0, steps, step);
    steps, s := steps + [step], Apply(s, step);
  }

  lemma Sent(slack: Time) returns (steps: seq<Step>)
    requires slack >= 0
    ensures ValidRun(Empty(slack), steps) && TimelyRun(Empty(slack), steps)
    ensures var s := Final(Empty(slack), steps);
      && Stands(s, slack, false, 19 * SECOND, Starting(Row(false), 0, true, 39 * SECOND))
      && s.requests == map[0 := Request(1, InFlight)] && s.ops == map[]
  {
    hide Final, ValidRun, TimelyRun;
    var s0 := Empty(slack);
    steps := Submitted(slack, false);
    var s := Final(s0, steps);
    var step := Around(Tick(19 * SECOND));
    RunThen(s0, steps, step);
    steps, s := steps + [step], Apply(s, step);
    step := Submits(0, BeginStart(true));
    RunThen(s0, steps, step);
    steps, s := steps + [step], Apply(s, step);
    assert PhaseOf(s, 0) == Starting(Row(false), 0, false, 39 * SECOND);
    step := Submits(0, Send);
    RunThen(s0, steps, step);
    steps, s := steps + [step], Apply(s, step);
  }

  /** A write that is given up, what it left behind dropped, and the next one begun after its pause. */
  lemma Retried(slack: Time, steps: seq<Step>, pause: Time, first: bool, begun: Time, lost: Time, again: Time)
    returns (more: seq<Step>)
    requires ValidRun(Empty(slack), steps) && TimelyRun(Empty(slack), steps)
    requires Stands(Final(Empty(slack), steps), slack, false, begun, WritingFrom(pause, first, begun))
    requires begun <= lost <= begun + PERSISTENCE_TIMEOUT + slack && lost + pause < RECORD_PATIENCE
    requires 0 <= pause && lost + pause <= again <= lost + pause + slack
    ensures ValidRun(Empty(slack), more) && TimelyRun(Empty(slack), more)
    ensures Stands(Final(Empty(slack), more), slack, false, again, WritingFrom(RecordLoop.Doubled(pause), false, again))
  {
    hide Final, ValidRun, TimelyRun, RecordLoop.Doubled;
    var s0 := Empty(slack);
    more := steps;
    var s := Final(s0, more);
    var step := Around(Tick(lost));
    RunThen(s0, more, step);
    more, s := more + [step], Apply(s, step);
    assert PhaseOf(s, 0) == WritingFrom(pause, first, begun);
    step := Records(0, LoseWrite);
    RunThen(s0, more, step);
    more, s := more + [step], Apply(s, step);
    var w := LateWrite(1, 7, begun + PERSISTENCE_TIMEOUT + STATEMENT_TIMEOUT);
    assert s.late == {w} && PhaseOf(s, 0) == Pausing(Row(false), 0, 7, RecordLoop.Doubled(pause), lost + pause);
    step := Around(LateDrops(w));
    RunThen(s0, more, step);
    more, s := more + [step], Apply(s, step);
    assert s.late == {} && PhaseOf(s, 0) == Pausing(Row(false), 0, 7, RecordLoop.Doubled(pause), lost + pause);
    step := Around(Tick(again));
    RunThen(s0, more, step);
    more, s := more + [step], Apply(s, step);
    step := Records(0, Wake);
    RunThen(s0, more, step);
    more, s := more + [step], Apply(s, step);
  }

  /** Two writes given up, the second so late that the third begins past the two minutes by all of the slack. */
  lemma TwiceRetried(slack: Time) returns (steps: seq<Step>)
    requires slack > SLACK_CEILING
    ensures ValidRun(Empty(slack), steps) && TimelyRun(Empty(slack), steps)
    ensures Stands(Final(Empty(slack), steps), slack, false, 143_500 * MILLISECOND,
                   WritingFrom(SECOND, false, 143_500 * MILLISECOND))
  {
    hide Final, ValidRun, TimelyRun, Stands, Empty, WritingFrom;
    steps := Named(slack);
    assert RecordLoop.Doubled(RECORD_PAUSE) == 500 * MILLISECOND && RecordLoop.Doubled(500 * MILLISECOND) == SECOND;
    steps := Retried(slack, steps, RECORD_PAUSE, true, 62 * SECOND, 89 * SECOND, 112 * SECOND);
    steps := Retried(slack, steps, 500 * MILLISECOND, false, 112 * SECOND,
                     119_500 * MILLISECOND - 1, 143_500 * MILLISECOND);
  }

  const LAST: LateWrite := LateWrite(1, 7, 156_500 * MILLISECOND)

  /** With any more slack, the last write can be given up so late that its statement runs into the fourth minute. */
  lemma LastWriteLate(slack: Time) returns (steps: seq<Step>)
    requires slack > SLACK_CEILING
    ensures ValidRun(Empty(slack), steps) && TimelyRun(Empty(slack), steps)
    ensures var s := Final(Empty(slack), steps);
      && s.now == START_OUTCOME_UNKNOWN_AFTER && s.late == {LAST}
      && s.store == S.Store(map[1 := Row(false)], map[], map[])
      && s.procs == map[0 := Process(Submitter, 1, ReadingBack(Row(false), 7), None, None)]
  {
    hide Final, ValidRun, TimelyRun;
    var s0 := Empty(slack);
    steps := TwiceRetried(slack);
    var s := Final(s0, steps);
    var step := Around(Tick(171 * SECOND));
    RunThen(s0, steps, step);
    steps, s := steps + [step], Apply(s, step);
    assert PhaseOf(s, 0) == WritingFrom(SECOND, false, 143_500 * MILLISECOND);
    step := Records(0, LoseWrite);
    RunThen(s0, steps, step);
    steps, s := steps + [step], Apply(s, step);
    assert s.late == {LAST} && PhaseOf(s, 0) == ReadingBack(Row(false), 7);
    step := Around(Tick(START_OUTCOME_UNKNOWN_AFTER));
    RunThen(s0, steps, step);
    steps, s := steps + [step], Apply(s, step);
  }

  const AGED: Snapshot := Snapshot(Row(false), START_OUTCOME_UNKNOWN_AFTER)

  function Concluding(): Process {
    Process(Checker, 1, Committing(AGED, FailPlan(OutcomeIsUnknown, OutcomeUnknown, None), false), None, None)
  }

  /** Three minutes on, a check reads the intent and concludes, whatever the submit is about to do. */
  lemma Resolves(slack: Time, steps: seq<Step>, q: Process) returns (more: seq<Step>)
    requires ValidRun(Empty(slack), steps)
    requires var s := Final(Empty(slack), steps);
      && s.now == START_OUTCOME_UNKNOWN_AFTER
      && s.store == S.Store(map[1 := Row(false)], map[], map[]) && s.procs == map[0 := q]
    ensures ValidRun(Empty(slack), more) && (TimelyRun(Empty(slack), steps) ==> TimelyRun(Empty(slack), more))
    ensures var s, t := Final(Empty(slack), steps), Final(Empty(slack), more);
      && t.late == s.late && t.ops == s.ops
      && In(t, 0) && t.procs[0] == q && 1 in t.store.rows
      && t.store.rows[1].status == Failed && t.store.rows[1].failure == Some(OutcomeUnknown) && t.store.rows[1].callId.None?
  {
    hide Final, ValidRun, TimelyRun;
    var s0 := Empty(slack);
    more := steps;
    var s := Final(s0, more);
    var step := Around(BeginCheck(1, 1));
    RunThen(s0, more, step);
    more, s := more + [step], Apply(s, step);
    assert PhaseOf(s, 1) == Checking(AGED) && s.procs[0] == q;
    step := Checks(1, RouteCheck);
    RunThen(s0, more, step);
    more, s := more + [step], Apply(s, step);
    assert s.procs[1] == Concluding() && s.procs[0] == q;
    step := Checks(1, CommitCheck(true));
    RunThen(s0, more, step);
    more, s := more + [step], Apply(s, step);
  }

  /** Exactly how late everything may run: no start is settled under its own pen as long as nothing outlasts a timeout by
    * more than the slack that three minutes leave, and one can be with any more. */
  lemma SlackExact(slack: Time)
    requires slack >= 0
    ensures (forall s0, steps | Init(s0) && s0.slack == slack && ValidRun(s0, steps) && TimelyRun(s0, steps) ::
               NonePremature(Final(s0, steps)))
      <==> slack <= SLACK_CEILING
  {
    if slack <= SLACK_CEILING {
      forall s0, steps | Init(s0) && s0.slack == slack && ValidRun(s0, steps) && TimelyRun(s0, steps)
        ensures NonePremature(Final(s0, steps))
      {
        NoPrematureUnknown(s0, steps);
      }
    } else {
      var steps := LastWriteLate(slack);
      var more := Resolves(slack, steps, Final(Empty(slack), steps).procs[0]);
      StartsEmpty(slack);
      var s := Final(Empty(slack), more);
      assert LAST in s.late && LAST.gen == 1;
      assert Known(s, 1) && MayRecord(s, 1) && !NonePremature(s);
    }
  }

  lemma FindsMovedOn(s: State)
    requires In(s, 0) && PhaseOf(s, 0) == WritingFrom(RECORD_PAUSE, true, 62 * SECOND)
    requires 1 in s.store.rows && s.store.rows[1].status == Failed
    ensures PhaseOf(Apply(s, Records(0, Write)), 0) == StoppingOrphan(Row(false), 7)
  {
  }

  /** Without the timing, a generation can be settled as unknown while its start still holds the call id: the write then
    * finds it moved on, and the call is an orphan to stop. */
  lemma FrozenStartIsOrphaned() returns (steps: seq<Step>)
    ensures Init(Empty(0)) && ValidRun(Empty(0), steps)
    ensures var s := Final(Empty(0), steps);
      && In(s, 0) && s.procs[0].phase.Writing? && s.procs[0].phase.call in s.ops
      && 1 in s.store.rows && s.store.rows[1].failure == Some(OutcomeUnknown) && s.store.rows[1].callId.None?
      && PhaseOf(Apply(s, Records(0, Write)), 0) == StoppingOrphan(Row(false), 7)
  {
    hide Final, ValidRun, Init, TimelyRun;
    StartsEmpty(0);
    steps := Named(0);
    var step := Around(Tick(START_OUTCOME_UNKNOWN_AFTER));
    RunThen(Empty(0), steps, step);
    steps := steps + [step];
    steps := Resolves(0, steps, Final(Empty(0), steps).procs[0]);
    FindsMovedOn(Final(Empty(0), steps));
  }
}
