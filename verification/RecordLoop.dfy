/** The patient write of an accepted call's id: retried with a growing pause until two minutes after the intent. */
module RecordLoop {
  import opened Types
  import S = Store

  /** What one write of the call id comes back with. `Failed` says nothing of what the database did. */
  datatype Answer = Landed(row: Generation) | MovedOn | Failed

  /** How a start ends for its call: on record, left alone, or stopped as one its generation does not carry. */
  datatype Ending = OnRecord(row: Generation) | CutShort | LeftRunning | Orphan

  /** What the world answers: each write, each look at the clock, whether each pause was cut, and the read-back. */
  datatype World = World(
    answers: nat -> Answer, clock: nat -> Time, cuts: nat -> bool, readBack: Option<Generation>)

  // ---------- pauses ----------

  function Doubled(pause: Time): Time {
    if pause + pause < RECORD_PAUSE_CEILING then pause + pause else RECORD_PAUSE_CEILING
  }

  /** The pause before retry `k`. */
  function PauseAt(k: nat): Time {
    if k == 0 then RECORD_PAUSE else Doubled(PauseAt(k - 1))
  }

  function Waited(k: nat): Time {
    if k == 0 then 0 else Waited(k - 1) + PauseAt(k - 1)
  }

  function Power(k: nat): nat {
    if k == 0 then 1 else 2 * Power(k - 1)
  }

  /** The pauses double from a quarter of a second, up to five seconds from the sixth on. */
  lemma {:induction false} PauseDoubles(k: nat)
    ensures PauseAt(k) == if k < 5 then RECORD_PAUSE * Power(k) else RECORD_PAUSE_CEILING
    ensures 0 < PauseAt(k) <= RECORD_PAUSE_CEILING
  {
    if k > 0 {
      PauseDoubles(k - 1);
      if k == 5 { assert Power(4) == 16; }
      if k < 5 { assert Power(k) <= 16 by { PowerSmall(k); } }
    }
  }

  lemma PowerSmall(k: nat)
    requires k < 5
    ensures Power(k) <= 16
  {
    assert Power(1) == 2 && Power(2) == 4 && Power(3) == 8 && Power(4) == 16;
  }

  lemma {:induction false} WaitedGrows(k: nat)
    ensures k >= 5 ==> Waited(k) == 7_750 * MILLISECOND + 5 * SECOND * (k - 5)
    ensures 0 <= Waited(k)
  {
    if k > 0 {
      WaitedGrows(k - 1);
      PauseDoubles(k - 1);
      if k == 5 {
        assert Waited(5) == Waited(4) + PauseAt(4) && Waited(4) == Waited(3) + PauseAt(3);
        assert Waited(3) == Waited(2) + PauseAt(2) && Waited(2) == Waited(1) + PauseAt(1);
        assert PauseAt(1) == 500 * MILLISECOND && PauseAt(2) == 1000 * MILLISECOND && PauseAt(3) == 2000 * MILLISECOND;
      }
    }
  }

  // ---------- the loop ----------

  /** The process's clock: past the intent at the first look, and past each pause at the next. */
  ghost predicate Advances(world: World, intentAt: Time) {
    world.clock(0) >= intentAt && forall k: nat :: world.clock(k + 1) >= world.clock(k) + PauseAt(k)
  }

  /** After write `k` the loop pauses, to write again. */
  predicate GoesOn(world: World, intentAt: Time, k: nat) {
    world.answers(k).Failed? && world.clock(k) + PauseAt(k) < intentAt + RECORD_PATIENCE
  }

  /** Write `n` is the last: every one before it failed in time to be retried, and it was not. */
  ghost predicate LastWrite(world: World, intentAt: Time, n: nat) {
    && (forall k :: 0 <= k < n ==> GoesOn(world, intentAt, k) && !world.cuts(k))
    && (!GoesOn(world, intentAt, n) || world.cuts(n))
  }

  /** Of two writes that are both the last, none comes before the other. */
  lemma LastWriteUnique(world: World, intentAt: Time, n: nat, m: nat)
    requires LastWrite(world, intentAt, n) && LastWrite(world, intentAt, m)
    ensures n == m
  {
  }

  lemma {:induction false} ClockWaited(world: World, intentAt: Time, k: nat)
    requires Advances(world, intentAt)
    ensures world.clock(k) >= intentAt + Waited(k)
  {
    if k > 0 { ClockWaited(world, intentAt, k - 1); }
  }

  /** Whatever the answers and however late each pause ends, the id is written 28 times at most. */
  lemma RetriesBounded(world: World, intentAt: Time, k: nat)
    requires Advances(world, intentAt) && GoesOn(world, intentAt, k)
    ensures k < 27
  {
    ClockWaited(world, intentAt, k);
    WaitedGrows(k + 1);
  }

  /** The bound is met: a database that never answers a process that never oversleeps. */
  lemma RetriesBoundMet(intentAt: Time) returns (world: World)
    ensures Advances(world, intentAt) && LastWrite(world, intentAt, 27)
  {
    world := World(_ => Answer.Failed, (k: nat) => intentAt + Waited(k), _ => false, None);
    hide Waited, PauseAt;
    forall k: nat | k < 27 ensures Waited(k) + PauseAt(k) < RECORD_PATIENCE { WaitedUnder(k, 27); }
    WaitedOver(27);
    WaitedAdvances();
  }

  lemma WaitedAdvances()
    ensures Waited(0) == 0 && forall k: nat :: Waited(k + 1) == Waited(k) + PauseAt(k)
  {
  }

  lemma WaitedUnder(k: nat, last: nat)
    requires k < last == 27
    ensures Waited(k) + PauseAt(k) < RECORD_PATIENCE
  {
    hide Waited, PauseAt;
    WaitedAdvances();
    WaitedOrdered(k + 1, last);
    WaitedGrows(last);
  }

  lemma WaitedOver(last: nat)
    requires last == 27
    ensures Waited(last) + PauseAt(last) >= RECORD_PATIENCE
  {
    hide Waited, PauseAt;
    WaitedAdvances();
    WaitedGrows(last + 1);
  }

  lemma {:induction false} WaitedOrdered(j: nat, k: nat)
    requires j <= k
    ensures Waited(j) <= Waited(k)
    decreases k - j
  {
    if j < k { PauseDoubles(j); WaitedOrdered(j + 1, k); }
  }

  /** What the last write, the first one and the read-back make of the call. */
  function EndingOf(world: World, intentAt: Time, call: CallId, n: nat): Ending {
    if world.answers(n).Landed? then OnRecord(world.answers(n).row)
    else if GoesOn(world, intentAt, n) then CutShort
    else if world.answers(0).MovedOn? then Orphan
    else if world.readBack.None? then LeftRunning
    else if world.readBack.value.callId == Some(call) then OnRecord(world.readBack.value)
    else Orphan
  }

  /** The row that carries the call, as the last write or the read-back showed it. */
  ghost function Found(world: World, intentAt: Time, call: CallId, n: nat): Option<Generation> {
    if world.answers(n).Landed? then Some(world.answers(n).row)
    else if !GoesOn(world, intentAt, n) && !world.answers(0).MovedOn?
            && world.readBack.Some? && world.readBack.value.callId == Some(call)
    then world.readBack
    else None
  }

  /** The write of a call id, its retries, and what becomes of a call that is not on record. */
  method RecordCall(world: World, intentAt: Time, call: CallId) returns (ending: Ending, writes: nat)
    requires Advances(world, intentAt)
    ensures 1 <= writes <= 28
    ensures LastWrite(world, intentAt, writes - 1)
    ensures ending == EndingOf(world, intentAt, call, writes - 1)
    // only a pause cut short ends a start in the middle of its retries
    ensures ending.CutShort? <==>
      world.answers(writes - 1).Failed? && world.clock(writes - 1) + PauseAt(writes - 1) < intentAt + 2 * MINUTE
    // the call is on record when a write landed, or when the row is read back with it, as that row
    ensures ending.OnRecord? <==> Found(world, intentAt, call, writes - 1).Some?
    ensures ending.OnRecord? ==> Some(ending.row) == Found(world, intentAt, call, writes - 1)
    // it is stopped when its generation was seen without it, moved on at once or read back so, and left alone unread
    ensures ending.Orphan? <==>
      && !world.answers(writes - 1).Landed? && !GoesOn(world, intentAt, writes - 1)
      && (world.answers(0).MovedOn? || (world.readBack.Some? && world.readBack.value.callId != Some(call)))
    ensures ending.LeftRunning? <==>
      && !world.answers(writes - 1).Landed? && !GoesOn(world, intentAt, writes - 1)
      && !world.answers(0).MovedOn? && world.readBack.None?
  {
    var answer := world.answers(0);
    writes := 1;
    var movedOn := answer.MovedOn?;
    var deadline := intentAt + RECORD_PATIENCE;
    var pause := RECORD_PAUSE;
    while answer.Failed? && world.clock(writes - 1) + pause < deadline
      invariant 1 <= writes <= 28
      invariant answer == world.answers(writes - 1) && pause == PauseAt(writes - 1)
      invariant movedOn == world.answers(0).MovedOn?
      invariant forall k :: 0 <= k < writes - 1 ==> GoesOn(world, intentAt, k) && !world.cuts(k)
      decreases 28 - writes
    {
      RetriesBounded(world, intentAt, writes - 1);
      if world.cuts(writes - 1) {
        return CutShort, writes;
      }
      answer := world.answers(writes);
      writes := writes + 1;
      pause := Doubled(pause);
    }
    if answer.Landed? {
      return OnRecord(answer.row), writes;
    }
    if !movedOn {
      if world.readBack.None? {
        return LeftRunning, writes;
      }
      if world.readBack.value.callId == Some(call) {
        return OnRecord(world.readBack.value), writes;
      }
    }
    ending := Orphan;
  }

  /** The world fixes the whole outcome: any two that meet the contract above are one. */
  lemma OneEnding(world: World, intentAt: Time, call: CallId, a: (Ending, nat), b: (Ending, nat))
    requires a.1 > 0 && LastWrite(world, intentAt, a.1 - 1) && a.0 == EndingOf(world, intentAt, call, a.1 - 1)
    requires b.1 > 0 && LastWrite(world, intentAt, b.1 - 1) && b.0 == EndingOf(world, intentAt, call, b.1 - 1)
    ensures a == b
  {
    LastWriteUnique(world, intentAt, a.1 - 1, b.1 - 1);
  }

  /** A call is stopped only when its generation was seen without it: moved on at once, or read back so. */
  lemma OrphanWasSeen(world: World, intentAt: Time, call: CallId, n: nat)
    requires LastWrite(world, intentAt, n) && EndingOf(world, intentAt, call, n).Orphan?
    ensures (n == 0 && world.answers(0).MovedOn?)
      || (world.readBack.Some? && world.readBack.value.callId != Some(call))
  {
    assert n > 0 ==> GoesOn(world, intentAt, 0);
  }
}
