/** The check slots that overlapping sweep calls share: every step any of them may take, in any order. */
module SweepSlots {
  import opened Types

  /** Where a call stands: reading a page, waiting for a slot, holding one, waiting for its checks, or answered. */
  datatype Stage = Reading | Dispatching | Holding | Draining | Answered

  /** A sweep call, its caller's deadline when there is one, how much of its page is yet to be dispatched, and of the page
    * at hand its size, the checks it started, and whether it gave the rest up. */
  datatype SweepCall = SweepCall(
    stage: Stage, deadline: Option<Time>, pending: nat, size: nat, started: nat, gaveUp: bool)

  /** A check that runs: the call that started it, and when. */
  datatype CheckRun = CheckRun(call: nat, startedAt: Time)

  /** `taken` is how many slots the shared channel holds. */
  datatype State = State(now: Time, capacity: nat, taken: nat, calls: map<nat, SweepCall>, checks: map<nat, CheckRun>)

  datatype Step =
    | Tick(t: Time)
    | Begin(c: nat, deadline: Option<Time>)
    | ReadPage(c: nat, size: nat)
    | ReadNothing(c: nat)
    | TakeSlot(c: nat)
    | GiveUp(c: nat)
    | StartCheck(c: nat, k: nat, ended: bool)
    | EndCheck(k: nat)
    | Drained(c: nat, again: bool)

  /** No check may start this late: it could outlast its caller's deadline. */
  predicate MayStart(deadline: Option<Time>, now: Time) {
    deadline.Some? ==> now < deadline.value - CHECK_TIMEOUT
  }

  predicate Enabled(s: State, step: Step) {
    match step
    case Tick(t) => s.now <= t
    case Begin(c, deadline) => c !in s.calls && MayStart(deadline, s.now)
    case ReadPage(c, size) => c in s.calls && s.calls[c].stage.Reading?
    case ReadNothing(c) => c in s.calls && s.calls[c].stage.Reading?
    case TakeSlot(c) => c in s.calls && s.calls[c].stage.Dispatching? && s.calls[c].pending > 0 && s.taken < s.capacity
    case GiveUp(c) => c in s.calls && s.calls[c].stage.Dispatching?
    case StartCheck(c, k, ended) => c in s.calls && s.calls[c].stage.Holding? && k !in s.checks
    case EndCheck(k) => k in s.checks
    case Drained(c, again) => c in s.calls && s.calls[c].stage.Draining? && ChecksOf(s, c) == {}
  }

  function ChecksOf(s: State, c: nat): set<nat> {
    set k | k in s.checks && s.checks[k].call == c
  }

  function At(s: State, c: nat, stage: Stage, pending: nat): State
    requires c in s.calls
  {
    s.(calls := s.calls[c := s.calls[c].(stage := stage, pending := pending)])
  }

  function Apply(s: State, step: Step): State
    requires Enabled(s, step)
  {
    match step
    case Tick(t) => s.(now := t)
    case Begin(c, deadline) => s.(calls := s.calls[c := SweepCall(Reading, deadline, 0, 0, 0, false)])
    case ReadPage(c, size) => ApplyPage(s, c, size)
    case ReadNothing(c) => At(s, c, Answered, 0)
    case TakeSlot(c) => At(s, c, Holding, s.calls[c].pending).(taken := s.taken + 1)
    case GiveUp(c) => GivenUp(s, c)
    case StartCheck(c, k, ended) => ApplyStart(s, c, k, ended)
    case EndCheck(k) => s.(checks := s.checks - {k}, taken := if s.taken > 0 then s.taken - 1 else 0)
    case Drained(c, again) => At(s, c, if again then Reading else Answered, 0)
  }

  function ApplyPage(s: State, c: nat, size: nat): State
    requires c in s.calls
  {
    var call := s.calls[c].(size := size, started := 0, gaveUp := false);
    At(s.(calls := s.calls[c := call]), c, if size == 0 then Draining else Dispatching, size)
  }

  /** The call ended: what is left of its page waits for another. */
  function GivenUp(s: State, c: nat): State
    requires c in s.calls
  {
    At(s.(calls := s.calls[c := s.calls[c].(gaveUp := true)]), c, Draining, 0)
  }

  /** The wait for the slot may have outlasted the server or the deadline: the slot then goes back unused. */
  function ApplyStart(s: State, c: nat, k: nat, ended: bool): State
    requires c in s.calls
  {
    var call := s.calls[c];
    if ended || !MayStart(call.deadline, s.now) then
      GivenUp(s, c).(taken := if s.taken > 0 then s.taken - 1 else 0)
    else
      var left := if call.pending > 0 then call.pending - 1 else 0;
      At(s.(calls := s.calls[c := call.(started := call.started + 1)]), c,
         if left == 0 then Draining else Dispatching, left).(checks := s.checks[k := CheckRun(c, s.now)])
  }

  predicate Init(s: State) {
    s.taken == 0 && s.calls == map[] && s.checks == map[]
  }

  function Holders(s: State): set<nat> {
    set c | c in s.calls && s.calls[c].stage.Holding?
  }

  /** Every slot taken is a check that runs, or in the hands of a call about to start one. */
  ghost predicate Inv(s: State) {
    && s.taken == |Holders(s)| + |s.checks| <= s.capacity
    && (forall k :: k in s.checks ==> CheckOk(s, k))
    && (forall c :: c in s.calls ==> CallOk(s.calls[c]))
  }

  /** A page is dispatched one check at a time until it is through, unless its call gave it up. */
  predicate CallOk(call: SweepCall) {
    match call.stage
    case Dispatching => !call.gaveUp && call.started + call.pending == call.size
    case Holding => !call.gaveUp && call.pending > 0 && call.started + call.pending == call.size
    case Draining => !call.gaveUp ==> call.started == call.size
    case _ => true
  }

  /** A check runs for a call that waits for it, and started early enough to end before that call's deadline. */
  ghost predicate CheckOk(s: State, k: nat)
    requires k in s.checks
  {
    var check := s.checks[k];
    && check.call in s.calls
    && (s.calls[check.call].stage.Dispatching? || s.calls[check.call].stage.Holding? || s.calls[check.call].stage.Draining?)
    && MayStart(s.calls[check.call].deadline, check.startedAt)
    && check.startedAt <= s.now
  }

  /** Of a step that changes one call, the stage it leaves the call in tells who holds a slot. */
  lemma HoldersOf(s: State, t: State, c: nat)
    requires c in s.calls && c in t.calls && t.calls == s.calls[c := t.calls[c]]
    ensures Holders(t) == if t.calls[c].stage.Holding? then Holders(s) + {c} else Holders(s) - {c}
  {
  }

  lemma StartKeeps(s: State, c: nat, k: nat, ended: bool)
    requires Inv(s) && Enabled(s, StartCheck(c, k, ended))
    ensures Inv(ApplyStart(s, c, k, ended))
  {
    var t := ApplyStart(s, c, k, ended);
    StartChecks(s, c, k, ended);
    StartCounts(s, c, k, ended);
    forall j | j in t.checks ensures CheckOk(t, j) { assert j in s.checks ==> CheckOk(s, j); }
  }

  /** The slot in hand is given back, or turns into a check that runs. */
  lemma StartChecks(s: State, c: nat, k: nat, ended: bool)
    requires Enabled(s, StartCheck(c, k, ended))
    ensures var t := ApplyStart(s, c, k, ended);
      || (t.checks == s.checks && t.taken == if s.taken > 0 then s.taken - 1 else 0)
      || (|t.checks| == |s.checks| + 1 && t.taken == s.taken)
  {
    var t := ApplyStart(s, c, k, ended);
    if k in t.checks { MapGrows(s.checks, k, t.checks[k]); }
  }

  lemma MapGrows<T>(m: map<nat, T>, k: nat, v: T)
    requires k !in m
    ensures |m[k := v]| == |m| + 1
  {
    assert m[k := v].Keys == m.Keys + {k};
    assert |m[k := v]| == |m[k := v].Keys| && |m| == |m.Keys|;
  }

  lemma StartCounts(s: State, c: nat, k: nat, ended: bool)
    requires Enabled(s, StartCheck(c, k, ended))
    ensures |Holders(s)| == |Holders(ApplyStart(s, c, k, ended))| + 1
  {
    var t := ApplyStart(s, c, k, ended);
    HoldersOf(s, t, c);
    assert Holders(t) == Holders(s) - {c} && c in Holders(s);
  }

  lemma EndKeeps(s: State, k: nat)
    requires Inv(s) && k in s.checks
    ensures Inv(Apply(s, EndCheck(k)))
  {
    var t := Apply(s, EndCheck(k));
    assert Holders(t) == Holders(s);
    assert t.checks.Keys == s.checks.Keys - {k} && |t.checks| == |t.checks.Keys| && |s.checks| == |s.checks.Keys|;
    forall j | j in t.checks ensures CheckOk(t, j) { assert CheckOk(s, j); }
  }

  lemma MoveCounts(s: State, step: Step)
    requires s.taken == |Holders(s)| + |s.checks| <= s.capacity
    requires Enabled(s, step) && !step.StartCheck? && !step.EndCheck?
    ensures var t := Apply(s, step);
      t.checks == s.checks && t.capacity == s.capacity && t.taken == |Holders(t)| + |t.checks| <= t.capacity
  {
    var t := Apply(s, step);
    if step.Begin? || step.Tick? {
      assert Holders(t) == Holders(s);
    } else {
      HoldersOf(s, t, step.c);
    }
  }

  lemma MoveCheck(s: State, step: Step, j: nat)
    requires j in s.checks && CheckOk(s, j) && Enabled(s, step) && !step.StartCheck? && !step.EndCheck?
    ensures j in Apply(s, step).checks && CheckOk(Apply(s, step), j)
  {
    if step.Drained? { assert j in ChecksOf(s, s.checks[j].call); }
  }

  lemma MoveCall(s: State, step: Step, c: nat)
    requires Enabled(s, step) && !step.StartCheck? && !step.EndCheck?
    requires c in s.calls ==> CallOk(s.calls[c])
    ensures c in Apply(s, step).calls ==> CallOk(Apply(s, step).calls[c])
  {
  }

  lemma MoveKeeps(s: State, step: Step)
    requires Inv(s) && Enabled(s, step) && !step.StartCheck? && !step.EndCheck?
    ensures Inv(Apply(s, step))
  {
    hide Apply, Enabled, CheckOk, CallOk, Holders;
    MoveCounts(s, step);
    forall j | j in Apply(s, step).checks ensures CheckOk(Apply(s, step), j) { MoveCheck(s, step, j); }
    forall c | c in Apply(s, step).calls ensures CallOk(Apply(s, step).calls[c]) { MoveCall(s, step, c); }
  }

  lemma StepKeeps(s: State, step: Step)
    requires Inv(s) && Enabled(s, step)
    ensures Inv(Apply(s, step))
  {
    match step
    case StartCheck(c, k, ended) => StartKeeps(s, c, k, ended);
    case EndCheck(k) => EndKeeps(s, k);
    case _ => MoveKeeps(s, step);
  }

  ghost predicate ValidRun(s: State, steps: seq<Step>)
    decreases |steps|
  {
    steps == [] || (Enabled(s, steps[0]) && ValidRun(Apply(s, steps[0]), steps[1..]))
  }

  ghost function Final(s: State, steps: seq<Step>): State
    requires ValidRun(s, steps)
    decreases |steps|
  {
    if steps == [] then s else Final(Apply(s, steps[0]), steps[1..])
  }

  lemma {:induction false} RunKeeps(s: State, steps: seq<Step>)
    requires Inv(s) && ValidRun(s, steps)
    ensures Inv(Final(s, steps))
    decreases |steps|
  {
    if steps != [] {
      StepKeeps(s, steps[0]);
      RunKeeps(Apply(s, steps[0]), steps[1..]);
    }
  }

  /** However many calls overlap: no more checks run at once than there are slots, a call that answered left none
    * running, and no check outlasts its caller's deadline unless it outlasts its own timeout. */
  lemma ChecksBounded(s0: State, steps: seq<Step>)
    requires Init(s0) && ValidRun(s0, steps)
    ensures var s := Final(s0, steps);
      && |s.checks| <= s.capacity
      && (forall c :: c in s.calls && s.calls[c].stage.Answered? ==> ChecksOf(s, c) == {})
      && (forall k :: k in s.checks ==>
            var check := s.checks[k];
            && check.call in s.calls
            && (s.calls[check.call].deadline.Some? ==>
                  check.startedAt + CHECK_TIMEOUT < s.calls[check.call].deadline.value))
  {
    assert Holders(s0) == {};
    RunKeeps(s0, steps);
    var s := Final(s0, steps);
    forall c | c in s.calls && s.calls[c].stage.Answered? ensures ChecksOf(s, c) == {} {
      forall k | k in s.checks ensures s.checks[k].call != c { assert CheckOk(s, k); }
    }
    forall k | k in s.checks
      ensures s.checks[k].call in s.calls && MayStart(s.calls[s.checks[k].call].deadline, s.checks[k].startedAt)
    {
      assert CheckOk(s, k);
    }
  }

  /** A call that has its slot in time starts the check it waited to start, at once and under its own name. */
  lemma HeldSlotStarts(s: State, c: nat, k: nat)
    requires Enabled(s, StartCheck(c, k, false))
    requires s.calls[c].deadline.Some? ==> s.now + MINUTE < s.calls[c].deadline.value
    ensures var t := Apply(s, StartCheck(c, k, false));
      && t.checks == s.checks[k := CheckRun(c, s.now)] && t.taken == s.taken
      && t.calls[c].started == s.calls[c].started + 1 && t.calls[c].gaveUp == s.calls[c].gaveUp
  {
  }

  /** And only a call that ended, or that has no time left, gives up what is left of its page. */
  lemma GivesUpOnly(s: State, step: Step, c: nat)
    requires Enabled(s, step) && c in s.calls && !s.calls[c].gaveUp
    ensures c in Apply(s, step).calls
    ensures Apply(s, step).calls[c].gaveUp ==>
      || step == GiveUp(c)
      || (step.StartCheck? && step.c == c && (step.ended || (s.calls[c].deadline.Some? && s.now + MINUTE >= s.calls[c].deadline.value)))
  {
  }

  /** A call whose checks are all through reads its next page, unless it is done. */
  lemma PagesFollow(s: State, c: nat, again: bool)
    requires Enabled(s, Drained(c, again))
    ensures var t := Apply(s, Drained(c, again));
      && t.checks == s.checks && t.taken == s.taken
      && (t.calls[c].stage.Reading? <==> again) && (t.calls[c].stage.Answered? <==> !again)
  {
  }

  /** In every run, a call that waits for its checks has started one for each generation of its page, unless it gave the
    * rest of the page up. */
  lemma PagesDispatched(s0: State, steps: seq<Step>, c: nat)
    requires Init(s0) && ValidRun(s0, steps)
    requires c in Final(s0, steps).calls && Final(s0, steps).calls[c].stage.Draining?
    ensures var call := Final(s0, steps).calls[c]; call.started == call.size || call.gaveUp
  {
    assert Holders(s0) == {};
    RunKeeps(s0, steps);
    assert CallOk(Final(s0, steps).calls[c]);
  }

  /** No path keeps a slot: not an abandoned dispatch, a failed check, a panic or a passed deadline. */
  lemma SlotsReturned(s0: State, steps: seq<Step>)
    requires Init(s0) && ValidRun(s0, steps)
    requires forall c :: c in Final(s0, steps).calls ==> Final(s0, steps).calls[c].stage.Answered?
    ensures Final(s0, steps).taken == 0 && Final(s0, steps).checks == map[]
  {
    assert Holders(s0) == {};
    RunKeeps(s0, steps);
    var s := Final(s0, steps);
    assert Holders(s) == {};
    assert forall k :: k in s.checks ==> CheckOk(s, k);
  }
}
