/** The sweep's leader role: a lock that a database session holds, over sessions that a pool shares. */
module SweepLeader {
  import opened Types

  /** Where the service keeps a session: in its pool, in one sweep's hands, or closed for good. */
  datatype Keeping = Pooled | Leased(sweep: nat) | Discarded

  datatype Standing = Asking(session: nat) | Leading(session: nat) | Ended

  /** `alive` are the sessions the database still serves; `holds` counts the times each of them took the lock. */
  datatype State = State(
    sessions: map<nat, Keeping>, alive: set<nat>, holds: map<nat, nat>, sweeps: map<nat, Standing>)

  datatype Step =
    | TakeSession(w: nat, n: nat)
    | Lock(w: nat, reached: bool, answered: bool)
    | Unlock(w: nat, reached: bool, answered: bool)
    | RunsLate(n: nat)
    | Dies(n: nat)

  function HoldsOf(s: State, n: nat): nat {
    if n in s.holds then s.holds[n] else 0
  }

  /** A session's lock is granted when no other session holds it. The session that holds it may take it again. */
  predicate Free(s: State, n: nat) {
    forall m :: m in s.holds && m != n ==> s.holds[m] == 0
  }

  predicate Enabled(s: State, step: Step) {
    match step
    case TakeSession(w, n) => w !in s.sweeps && (n in s.sessions ==> s.sessions[n].Pooled?)
    case Lock(w, reached, answered) =>
      && w in s.sweeps && s.sweeps[w].Asking?
      && (reached ==> s.sweeps[w].session in s.alive) && (answered ==> reached)
    case Unlock(w, reached, answered) =>
      && w in s.sweeps && s.sweeps[w].Leading?
      && (reached ==> s.sweeps[w].session in s.alive) && (answered ==> reached)
    case RunsLate(n) => n in s.alive && n in s.sessions && s.sessions[n].Discarded? && HoldsOf(s, n) == 0
    case Dies(n) => n in s.alive
  }

  function Keep(s: State, n: nat, keeping: Keeping): State {
    s.(sessions := s.sessions[n := keeping])
  }

  /** A session ends, and every lock it holds with it. */
  function ApplyDies(s: State, n: nat): State {
    s.(alive := s.alive - {n}, holds := s.holds - {n})
  }

  /** The database may run a lock query after its client gave it up. */
  function ApplyLate(s: State, n: nat): State {
    if Free(s, n) then s.(holds := s.holds[n := HoldsOf(s, n) + 1]) else s
  }

  /** Closed for good by the service: the database ends it as soon as it notices, a step of its own. */
  function Discard(s: State, n: nat): State {
    Keep(s, n, Discarded)
  }

  /** The query may reach the database and its answer be lost: the session then goes, with a lock it may hold. */
  function ApplyLock(s: State, w: nat, reached: bool, answered: bool): State
    requires w in s.sweeps && s.sweeps[w].Asking?
  {
    var n := s.sweeps[w].session;
    var granted := reached && Free(s, n);
    var t := if granted then s.(holds := s.holds[n := HoldsOf(s, n) + 1]) else s;
    if !answered then Discard(t, n).(sweeps := t.sweeps[w := Ended])
    else if granted then t.(sweeps := t.sweeps[w := Leading(n)])
    else Keep(t, n, Pooled).(sweeps := t.sweeps[w := Ended])
  }

  /** Any other answer than a release closes the session for good too. */
  function ApplyUnlock(s: State, w: nat, reached: bool, answered: bool): State
    requires w in s.sweeps && s.sweeps[w].Leading?
  {
    var n := s.sweeps[w].session;
    var unlocked := reached && HoldsOf(s, n) > 0;
    var t := if unlocked then s.(holds := s.holds[n := HoldsOf(s, n) - 1]) else s;
    (if answered && unlocked then Keep(t, n, Pooled) else Discard(t, n)).(sweeps := t.sweeps[w := Ended])
  }

  function Apply(s: State, step: Step): State
    requires Enabled(s, step)
  {
    match step
    case TakeSession(w, n) =>
      Keep(s, n, Leased(w)).(
        alive := if n in s.sessions then s.alive else s.alive + {n}, sweeps := s.sweeps[w := Asking(n)])
    case Lock(w, reached, answered) => ApplyLock(s, w, reached, answered)
    case Unlock(w, reached, answered) => ApplyUnlock(s, w, reached, answered)
    case RunsLate(n) => ApplyLate(s, n)
    case Dies(n) => ApplyDies(s, n)
  }

  predicate Init(s: State) {
    && s.holds == map[] && s.sweeps == map[]
    && forall n :: n in s.sessions ==> s.sessions[n].Pooled?
  }

  // ---------- what one answer does ----------

  /** A role that no other session holds is granted, and the sweep told so leads; one that another holds is not, and its
    * session goes back to the pool. Untold, the session is closed for good. */
  lemma Locks(s: State, w: nat, reached: bool, answered: bool)
    requires Enabled(s, Lock(w, reached, answered)) && s.sweeps[w].session in s.sessions
    ensures var n, t := s.sweeps[w].session, ApplyLock(s, w, reached, answered);
      var free := forall m :: m in s.holds && m != n ==> s.holds[m] == 0;
      && HoldsOf(t, n) == (if reached && free then HoldsOf(s, n) + 1 else HoldsOf(s, n))
      && t.sweeps[w] == (if answered && free then Leading(n) else Ended)
      && n in t.sessions
      && t.sessions[n] == (if !answered then Discarded else if free then s.sessions[n] else Pooled)
  {
  }

  /** A leader told that it gave the role back returns its session to the pool. Any other session is closed for good. */
  lemma Unlocks(s: State, w: nat, reached: bool, answered: bool)
    requires Enabled(s, Unlock(w, reached, answered))
    ensures var n, t := s.sweeps[w].session, ApplyUnlock(s, w, reached, answered);
      && t.sweeps[w].Ended? && n in t.sessions
      && HoldsOf(t, n) == (if reached && HoldsOf(s, n) > 0 then HoldsOf(s, n) - 1 else HoldsOf(s, n))
      && t.sessions[n] == (if answered && HoldsOf(s, n) > 0 then Pooled else Discarded)
  {
  }

  // ---------- what every step keeps ----------

  /** A lock is held once, by a living session that a leader has in hand, or that is on its way out. */
  ghost predicate HoldOk(s: State, n: nat) {
    HoldsOf(s, n) > 0 ==>
      && HoldsOf(s, n) == 1 && n in s.alive && n in s.sessions && Free(s, n)
      && (s.sessions[n].Discarded?
          || (s.sessions[n].Leased? && s.sessions[n].sweep in s.sweeps && s.sweeps[s.sessions[n].sweep] == Leading(n)))
  }

  ghost predicate SweepOk(s: State, w: nat)
    requires w in s.sweeps
  {
    match s.sweeps[w]
    case Asking(n) => n in s.sessions && s.sessions[n] == Leased(w) && HoldsOf(s, n) == 0
    case Leading(n) => n in s.sessions && s.sessions[n] == Leased(w) && (n in s.alive ==> HoldsOf(s, n) == 1)
    case Ended => true
  }

  ghost predicate Inv(s: State) {
    && (forall n :: HoldOk(s, n))
    && (forall w :: w in s.sweeps ==> SweepOk(s, w))
  }

  lemma TakeKeeps(s: State, w: nat, n: nat)
    requires Inv(s) && Enabled(s, TakeSession(w, n))
    ensures Inv(Apply(s, TakeSession(w, n)))
  {
    var t := Apply(s, TakeSession(w, n));
    assert HoldOk(s, n);
    forall m ensures HoldOk(t, m) { assert HoldOk(s, m); }
    forall v | v in t.sweeps ensures SweepOk(t, v) { assert v in s.sweeps ==> SweepOk(s, v); }
  }

  lemma LockKeeps(s: State, w: nat, reached: bool, answered: bool)
    requires Inv(s) && Enabled(s, Lock(w, reached, answered))
    ensures Inv(ApplyLock(s, w, reached, answered))
  {
    var t := ApplyLock(s, w, reached, answered);
    assert SweepOk(s, w);
    forall m ensures HoldOk(t, m) { assert HoldOk(s, m); }
    forall v | v in t.sweeps ensures SweepOk(t, v) { assert SweepOk(s, v); }
  }

  lemma UnlockKeeps(s: State, w: nat, reached: bool, answered: bool)
    requires Inv(s) && Enabled(s, Unlock(w, reached, answered))
    ensures Inv(ApplyUnlock(s, w, reached, answered))
  {
    var t := ApplyUnlock(s, w, reached, answered);
    assert SweepOk(s, w);
    forall m ensures HoldOk(t, m) { assert HoldOk(s, m); }
    forall v | v in t.sweeps ensures SweepOk(t, v) { assert SweepOk(s, v); }
  }

  lemma LateKeeps(s: State, n: nat)
    requires Inv(s) && Enabled(s, RunsLate(n))
    ensures Inv(ApplyLate(s, n))
  {
    var t := ApplyLate(s, n);
    forall m ensures HoldOk(t, m) { assert HoldOk(s, m); }
    forall v | v in t.sweeps ensures SweepOk(t, v) { assert SweepOk(s, v); }
  }

  lemma DiesKeeps(s: State, n: nat)
    requires Inv(s)
    ensures Inv(ApplyDies(s, n))
  {
    var t := ApplyDies(s, n);
    forall m ensures HoldOk(t, m) { assert HoldOk(s, m); }
    forall v | v in t.sweeps ensures SweepOk(t, v) { assert SweepOk(s, v); }
  }

  lemma StepKeeps(s: State, step: Step)
    requires Inv(s) && Enabled(s, step)
    ensures Inv(Apply(s, step))
  {
    match step
    case TakeSession(w, n) => TakeKeeps(s, w, n);
    case Lock(w, reached, answered) => LockKeeps(s, w, reached, answered);
    case Unlock(w, reached, answered) => UnlockKeeps(s, w, reached, answered);
    case RunsLate(n) => LateKeeps(s, n);
    case Dies(n) => DiesKeeps(s, n);
  }

  ghost predicate ValidRun(s: State, steps: seq<Step>)
    decreases |steps|
  {
    steps == [] || (Enabled(s, steps[0]) && ValidRun(Apply(s, steps[0]), steps[1..]))
  }

  ghost function Final(s: State, steps: seq<Step>): State
    requires ValidRun(s, steps)
    decreases |steps|
  {
    if steps == [] then s else Final(Apply(s, steps[0]), steps[1..])
  }

  lemma {:induction false} RunKeeps(s: State, steps: seq<Step>)
    requires Inv(s) && ValidRun(s, steps)
    ensures Inv(Final(s, steps))
    decreases |steps|
  {
    if steps != [] {
      StepKeeps(s, steps[0]);
      RunKeeps(Apply(s, steps[0]), steps[1..]);
    }
  }

  // ---------- the leader role ----------

  predicate Leads(s: State, w: nat) {
    w in s.sweeps && s.sweeps[w].Leading?
  }

  /** The leader's session is still served: the role is really its own. */
  predicate LeadsAlive(s: State, w: nat) {
    Leads(s, w) && s.sweeps[w].session in s.alive
  }

  /** Whatever is answered, lost or fails: one sweep at most holds the role, no session in the pool does, and once its
    * sweep ended, only a session closed for good may hold it, until the database ends that session. */
  lemma OneLeader(s0: State, steps: seq<Step>)
    requires Init(s0) && ValidRun(s0, steps)
    ensures var s := Final(s0, steps);
      && (forall n, m :: HoldsOf(s, n) > 0 && HoldsOf(s, m) > 0 ==> n == m)
      && (forall n :: n in s.sessions && s.sessions[n].Pooled? ==> HoldsOf(s, n) == 0)
      && (forall n :: HoldsOf(s, n) > 0 ==>
            n in s.sessions && (s.sessions[n].Discarded? || exists w :: LeadsAlive(s, w) && s.sweeps[w].session == n))
      && (forall v, w :: LeadsAlive(s, v) && LeadsAlive(s, w) ==> v == w)
  {
    assert Inv(s0);
    RunKeeps(s0, steps);
    var s := Final(s0, steps);
    forall n, m | HoldsOf(s, n) > 0 && HoldsOf(s, m) > 0 ensures n == m { assert HoldOk(s, n) && HoldOk(s, m); }
    forall n | n in s.sessions && s.sessions[n].Pooled? ensures HoldsOf(s, n) == 0 { assert HoldOk(s, n); }
    forall n | HoldsOf(s, n) > 0
      ensures n in s.sessions && (s.sessions[n].Discarded? || exists w :: LeadsAlive(s, w) && s.sweeps[w].session == n)
    {
      assert HoldOk(s, n);
      if !s.sessions[n].Discarded? { assert LeadsAlive(s, s.sessions[n].sweep); }
    }
    forall v, w | LeadsAlive(s, v) && LeadsAlive(s, w) ensures v == w {
      assert SweepOk(s, v) && SweepOk(s, w);
      assert HoldOk(s, s.sweeps[v].session) && HoldOk(s, s.sweeps[w].session);
    }
  }

  /** Of several sweeps that lead at once, all but one at most lead on a session that the database ended. */
  lemma TwoLeaders(s0: State, steps: seq<Step>, v: nat, w: nat)
    requires Init(s0) && ValidRun(s0, steps)
    requires v != w && Leads(Final(s0, steps), v) && Leads(Final(s0, steps), w)
    ensures !LeadsAlive(Final(s0, steps), v) || !LeadsAlive(Final(s0, steps), w)
  {
    OneLeader(s0, steps);
  }

  ghost predicate TwoLead(s: State) {
    exists v, w :: v != w && Leads(s, v) && Leads(s, w)
  }

  ghost predicate AllAlive(s: State) {
    forall w :: Leads(s, w) ==> LeadsAlive(s, w)
  }

  /** The database ends no session that a sweep has in hand. */
  predicate Spares(s: State, step: Step) {
    step.Dies? && step.n in s.sessions ==> !s.sessions[step.n].Leased?
  }

  ghost predicate SparingRun(s: State, steps: seq<Step>)
    requires ValidRun(s, steps)
    decreases |steps|
  {
    steps == [] || (Spares(s, steps[0]) && SparingRun(Apply(s, steps[0]), steps[1..]))
  }

  lemma AliveIsOne(s: State)
    requires Inv(s) && AllAlive(s)
    ensures !TwoLead(s)
  {
    forall v, w | Leads(s, v) && Leads(s, w) ensures v == w {
      assert LeadsAlive(s, v) && LeadsAlive(s, w);
      assert SweepOk(s, v) && SweepOk(s, w);
      assert HoldOk(s, s.sweeps[v].session) && HoldOk(s, s.sweeps[w].session);
    }
  }

  /** A sweep comes to lead by an answer, which only a living session gets. */
  lemma StepSpares(s: State, step: Step)
    requires Inv(s) && AllAlive(s) && Enabled(s, step) && Spares(s, step)
    ensures AllAlive(Apply(s, step))
  {
    var t := Apply(s, step);
    forall w | Leads(t, w) ensures LeadsAlive(t, w) {
      if Leads(s, w) { assert LeadsAlive(s, w) && SweepOk(s, w); }
    }
  }

  lemma {:induction false} RunSpares(s: State, steps: seq<Step>)
    requires Inv(s) && AllAlive(s) && ValidRun(s, steps) && SparingRun(s, steps)
    ensures !TwoLead(Final(s, steps))
    decreases |steps|
  {
    AliveIsOne(s);
    if steps != [] {
      StepKeeps(s, steps[0]);
      StepSpares(s, steps[0]);
      RunSpares(Apply(s, steps[0]), steps[1..]);
    }
  }

  lemma {:induction false} Unused(used: set<nat>) returns (n: nat)
    ensures n !in used && forall m :: m in used ==> m < n
    decreases |used|
  {
    n := 0;
    if used != {} {
      var m :| m in used;
      var k := Unused(used - {m});
      n := if k <= m then m + 1 else k;
      forall x | x in used ensures x < n { assert x == m || x in used - {m}; }
    }
  }

  /** The role goes to a sweep that asks for it on a session of its own, when no session holds it. */
  lemma Takes(s: State, w: nat, n: nat)
    requires w !in s.sweeps && n !in s.sessions && forall m :: HoldsOf(s, m) == 0
    ensures var steps := [TakeSession(w, n), Lock(w, true, true)];
      && ValidRun(s, steps) && SparingRun(s, steps)
      && Final(s, steps).sweeps == s.sweeps[w := Leading(n)]
  {
    var steps := [TakeSession(w, n), Lock(w, true, true)];
    var t := Apply(s, steps[0]);
    assert Free(t, n) by { assert forall m :: m in t.holds ==> t.holds[m] == HoldsOf(s, m); }
    assert steps[1..] == [Lock(w, true, true)] && [Lock(w, true, true)][1..] == [];
    var u := Apply(t, steps[1]);
    assert ValidRun(u, []) && Final(u, []) == u;
    assert Final(t, [Lock(w, true, true)]) == u;
  }

  /** The session that holds the role may end, and the role is free then. */
  lemma Frees(s: State, m: nat)
    requires Inv(s) && HoldsOf(s, m) > 0
    ensures Enabled(s, Dies(m)) && forall k :: HoldsOf(ApplyDies(s, m), k) == 0
  {
    assert HoldOk(s, m);
    forall k ensures HoldsOf(ApplyDies(s, m), k) == 0 { assert HoldOk(s, k); }
  }

  /** A leader that lost its session can be joined by another. */
  lemma LostIsJoined(s: State, w: nat) returns (steps: seq<Step>)
    requires Inv(s) && Leads(s, w) && !LeadsAlive(s, w)
    ensures ValidRun(s, steps) && SparingRun(s, steps) && TwoLead(Final(s, steps))
  {
    var v := Unused(s.sweeps.Keys);
    var n := Unused(s.sessions.Keys);
    if m :| HoldsOf(s, m) > 0 {
      assert HoldOk(s, m);
      if !s.sessions[m].Discarded? {
        steps := [];
        assert Leads(s, s.sessions[m].sweep) && s.sessions[m].sweep != w;
      } else {
        Frees(s, m);
        var t := ApplyDies(s, m);
        Takes(t, v, n);
        var others := [TakeSession(v, n), Lock(v, true, true)];
        steps := [Dies(m)] + others;
        assert steps[1..] == others;
        assert Leads(Final(t, others), v) && Leads(Final(t, others), w);
      }
    } else {
      Takes(s, v, n);
      steps := [TakeSession(v, n), Lock(v, true, true)];
      assert Leads(Final(s, steps), v) && Leads(Final(s, steps), w);
    }
  }

  /** A continuation in which the database ends no session in a sweep's hands, and two sweeps lead at its end. */
  ghost predicate Joins(s: State, after: seq<Step>) {
    ValidRun(s, after) && SparingRun(s, after) && TwoLead(Final(s, after))
  }

  /** Exactly when two sweeps may come to lead at once, in any state a run reaches, while the database ends no session that
    * a sweep has in hand from there on: when it ended one under a leader before. */
  lemma TwoLeadersExactly(s0: State, before: seq<Step>)
    requires Init(s0) && ValidRun(s0, before)
    ensures var s := Final(s0, before);
      (exists after :: Joins(s, after)) <==> (exists w :: Leads(s, w) && !LeadsAlive(s, w))
  {
    assert Inv(s0);
    RunKeeps(s0, before);
    var s := Final(s0, before);
    if w :| Leads(s, w) && !LeadsAlive(s, w) {
      var after := LostIsJoined(s, w);
      assert Joins(s, after);
    } else {
      assert AllAlive(s);
      forall after ensures !Joins(s, after) {
        if ValidRun(s, after) && SparingRun(s, after) { RunSpares(s, after); }
      }
    }
  }

  /** One such run: the first leader's session dies, and the next sweep takes the role while the first goes on. */
  lemma TwoLeadersExample() returns (s0: State, steps: seq<Step>)
    ensures Init(s0) && ValidRun(s0, steps) && Leads(Final(s0, steps), 0) && Leads(Final(s0, steps), 1)
  {
    s0 := State(map[], {}, map[], map[]);
    steps := [TakeSession(0, 0), Lock(0, true, true), Dies(0), TakeSession(1, 1), Lock(1, true, true)];
    var s1 := Apply(s0, steps[0]);
    var s2 := Apply(s1, steps[1]);
    assert s2.holds == map[0 := 1];
    var s3 := Apply(s2, steps[2]);
    assert s3.holds == map[];
    var s4 := Apply(s3, steps[3]);
    var s5 := Apply(s4, steps[4]);
    assert steps[1..][0] == steps[1] && steps[1..][1..][0] == steps[2];
    assert steps[1..][1..][1..][0] == steps[3] && steps[1..][1..][1..][1..][0] == steps[4];
    assert steps[1..][1..][1..][1..][1..] == [];
    assert Final(s4, [steps[4]]) == s5 by { assert [steps[4]][1..] == []; }
  }
}
