/** The start of a provider call: sent once, and the call the provider names recorded exactly once. */
module Start {
  import opened Types
  import opened Check
  import opened Connector
  import RecordLoop

  /** One event of a creation stream, or one whole answer: unreadable, or a call with or without a name. */
  datatype Event = Unreadable | Describes(id: Option<CallId>, state: CallState)

  /** What came back for the one request a start sends, and whether the request fully left. */
  datatype Exchange = Exchange(error: Option<StartError>, sent: bool, answer: Event, events: seq<Event>)

  datatype Started = Named(id: CallId, state: CallState) | Unstarted(kind: StartClass) | NotKept

  /** How the start of a generation goes on. */
  datatype Sequel = Fails(plan: Plan) | Unrecorded | Recorded(row: Generation) | StopNow(row: Generation)

  predicate Names(event: Event) {
    event.Describes? && event.id.Some?
  }

  function FirstNamed(events: seq<Event>): Option<CallId> {
    if events == [] then None
    else if Names(events[0]) then events[0].id
    else FirstNamed(events[1..])
  }

  lemma {:induction false} FirstNamedIsFirst(events: seq<Event>)
    ensures FirstNamed(events).None? <==> forall i :: 0 <= i < |events| ==> events[i].Unreadable? || events[i].id.None?
    ensures FirstNamed(events).Some? ==>
      exists i :: 0 <= i < |events| && events[i].Describes? && events[i].id == FirstNamed(events)
                  && forall j :: 0 <= j < i ==> events[j].Unreadable? || events[j].id.None?
  {
    if events != [] && !Names(events[0]) {
      FirstNamedIsFirst(events[1..]);
      if FirstNamed(events).Some? {
        var i :| 0 <= i < |events[1..]| && Names(events[1..][i]) && events[1..][i].id == FirstNamed(events)
                 && forall j :: 0 <= j < i ==> !Names(events[1..][j]);
        assert events[i + 1] == events[1..][i];
        forall j | 0 <= j < i + 1 ensures !Names(events[j]) { assert j > 0 ==> events[j] == events[1..][j - 1]; }
      } else {
        forall i | 0 <= i < |events| ensures !Names(events[i]) { assert i > 0 ==> events[i] == events[1..][i - 1]; }
      }
    }
  }

  lemma {:induction false} FirstNamedAppend(events: seq<Event>, event: Event)
    ensures FirstNamed(events + [event]) ==
      if FirstNamed(events).Some? then FirstNamed(events) else if Names(event) then event.id else None
  {
    if events == [] {
      assert (events + [event])[1..] == [];
    } else {
      assert (events + [event])[1..] == events[1..] + [event];
      FirstNamedAppend(events[1..], event);
    }
  }

  /** The call the provider named, if it named one. */
  function NamedBy(x: Exchange, streamed: bool): Option<CallId> {
    if x.error.Some? then None
    else if streamed then FirstNamed(x.events)
    else if Names(x.answer) then x.answer.id
    else None
  }

  /** The hold of a creation stream ended at event `k`: the provider began the call there, or named it there last. */
  ghost predicate HeldUntil(events: seq<Event>, k: int) {
    && 0 <= k < |events| && Names(events[k])
    && (forall i :: 0 <= i < k && Names(events[i]) ==> events[i].state == CallQueued)
    && (events[k].state == CallQueued ==> forall i :: k < i < |events| ==> !Names(events[i]))
  }

  /** The record step of one start. `handed` lists the calls handed to it. */
  class Recorder {
    const world: RecordLoop.World
    const intentAt: Time
    var handed: seq<CallId>
    var row: Option<Generation>
    var failed: bool

    constructor (world: RecordLoop.World, intentAt: Time)
      requires RecordLoop.Advances(world, intentAt)
      ensures Valid() && handed == [] && this.world == world && this.intentAt == intentAt
    {
      this.world, this.intentAt := world, intentAt;
      handed, row, failed := [], None, false;
    }

    ghost predicate Valid()
      reads this
    {
      && RecordLoop.Advances(world, intentAt)
      && (handed == [] ==> row.None? && !failed)
      && (|handed| == 1 ==> exists n ::
            && RecordLoop.LastWrite(world, intentAt, n)
            && var ending := RecordLoop.EndingOf(world, intentAt, handed[0], n);
               if ending.OnRecord? then row == Some(ending.row) && !failed else row.None? && failed)
    }

    method Record(call: CallId)
      requires Valid() && handed == []
      modifies this
      ensures Valid() && handed == [call]
    {
      var ending, writes := RecordLoop.RecordCall(world, intentAt, call);
      handed := handed + [call];
      if ending.OnRecord? {
        row, failed := Some(ending.row), false;
      } else {
        row, failed := None, true;
      }
    }
  }

  /** Follows a creation stream as far as the start of its call, which is recorded at its first name. */
  method HoldStream(x: Exchange, recorder: Recorder) returns (started: Started)
    requires recorder.Valid() && recorder.handed == []
    modifies recorder
    ensures recorder.Valid()
    ensures NamedBy(x, true).None? ==> recorder.handed == [] && started.Unstarted?
    ensures NamedBy(x, true).Some? ==> recorder.handed == [NamedBy(x, true).value] && !started.Unstarted?
    ensures started.NotKept? <==> recorder.handed != [] && recorder.failed
    ensures started.Unstarted? ==>
      started.kind == if x.error.Some? then ClassifyStart(x.error.value, x.sent) else Ambiguous
    ensures started.Named? ==>
      exists k :: HeldUntil(x.events, k) && started == Named(x.events[k].id.value, x.events[k].state)
  {
    if x.error.Some? {
      return Unstarted(ClassifyStart(x.error.value, x.sent));
    }
    var call: Option<(CallId, CallState)> := None;
    ghost var at := 0;
    var i := 0;
    while i < |x.events|
      invariant 0 <= i <= |x.events| && recorder.Valid() && (recorder.handed != [] ==> !recorder.failed)
      invariant call.None? <==> FirstNamed(x.events[..i]).None?
      invariant recorder.handed == if FirstNamed(x.events[..i]).None? then [] else [FirstNamed(x.events[..i]).value]
      invariant forall j :: 0 <= j < i && Names(x.events[j]) ==> x.events[j].state == CallQueued
      invariant call.None? ==> forall j :: 0 <= j < i ==> !Names(x.events[j])
      invariant call.Some? ==>
        && at < i && Names(x.events[at]) && call == Some((x.events[at].id.value, x.events[at].state))
        && forall j :: at < j < i ==> !Names(x.events[j])
    {
      var event := x.events[i];
      FirstNamedAppend(x.events[..i], event);
      assert x.events[..i] + [event] == x.events[..i + 1];
      FirstNamedOfPrefix(x.events, i + 1);
      i := i + 1;
      if !Names(event) {
        continue;
      }
      var named := call.None?;
      call := Some((event.id.value, event.state));
      at := i - 1;
      if named {
        recorder.Record(event.id.value);
        if recorder.failed {
          return NotKept;
        }
      }
      if event.state != CallQueued {
        return Named(event.id.value, event.state);
      }
    }
    assert x.events[..i] == x.events;
    if call.None? {
      return Unstarted(Ambiguous);
    }
    started := Named(call.value.0, call.value.1);
  }

  lemma {:induction false} FirstNamedOfPrefix(events: seq<Event>, n: nat)
    requires n <= |events|
    ensures FirstNamed(events[..n]).Some? ==> FirstNamed(events) == FirstNamed(events[..n])
    decreases n
  {
    if n > 0 && !Names(events[0]) {
      assert events[..n][1..] == events[1..][..n - 1];
      FirstNamedOfPrefix(events[1..], n - 1);
    }
  }

  /** The one request of a start. A call named only once the answer is whole is recorded by the caller. */
  method Post(x: Exchange, streamed: bool, recorder: Recorder) returns (started: Started)
    requires recorder.Valid() && recorder.handed == []
    modifies recorder
    ensures recorder.Valid()
    ensures recorder.handed == if streamed && NamedBy(x, true).Some? then [NamedBy(x, true).value] else []
    ensures NamedBy(x, streamed).None? <==> started.Unstarted?
    ensures started.Unstarted? ==>
      started.kind == if x.error.Some? then ClassifyStart(x.error.value, x.sent) else Ambiguous
    ensures started.NotKept? <==> recorder.handed != [] && recorder.failed
    ensures started.Named? ==>
      if streamed
      then exists k :: HeldUntil(x.events, k) && started == Named(x.events[k].id.value, x.events[k].state)
      else Names(x.answer) && started == Named(x.answer.id.value, x.answer.state)
  {
    if streamed {
      started := HoldStream(x, recorder);
    } else if x.error.Some? {
      started := Unstarted(ClassifyStart(x.error.value, x.sent));
    } else if !Names(x.answer) {
      started := Unstarted(Ambiguous);
    } else {
      started := Named(x.answer.id.value, x.answer.state);
    }
  }

  /** The request of this start leaves: its provider is still served, and its intent is fresh. */
  predicate Leaves(served: bool, now: Time, intentAt: Time) {
    served && now - intentAt < START_TIMEOUT
  }

  /** Nothing says so clearly that the provider accepted no call: nothing left, or a definitive refusal came back. */
  predicate NothingAccepted(x: Exchange) {
    x.error.Some? && ((x.error.value.Transport? && !x.sent) || (x.error.value.Status? && Definitive(x.error.value.code)))
  }

  /** Starts a fresh intent. */
  method StartCall(intent: Generation, served: bool, now: Time, x: Exchange, body: Option<Response>, recorder: Recorder)
    returns (sequel: Sequel)
    requires recorder.Valid() && recorder.handed == []
    requires x.error.Some? && x.error.value.Status? ==> x.error.value.code >= 400
    modifies recorder
    ensures recorder.Valid()
    // exactly the call the provider named is recorded, once, on every path
    ensures recorder.handed ==
      if Leaves(served, now, recorder.intentAt) && NamedBy(x, intent.key.streamed).Some?
      then [NamedBy(x, intent.key.streamed).value] else []
    // which it is while the provider is served and the intent is under twenty seconds old
    ensures recorder.handed != [] <==>
      served && now - recorder.intentAt < 20 * SECOND && NamedBy(x, intent.key.streamed).Some?
    // only a start that named no call fails, and its class is free exactly when nothing was accepted
    ensures sequel.Fails? <==> recorder.handed == []
    ensures sequel.Fails? ==> Fits(sequel.plan, None, intent.cancelRequestedAt.Some?, true)
    ensures sequel.Fails? ==>
      (sequel.plan.failure != Some(OutcomeUnknown) <==> !Leaves(served, now, recorder.intentAt) || NothingAccepted(x))
    // the caller's own request is at fault exactly for a definitive status of its own, and only then answered in its words
    ensures sequel.Fails? ==>
      && sequel.plan.status == Failed && sequel.plan.usage.None?
      && (sequel.plan.failure == Some(Rejected) <==>
            && Leaves(served, now, recorder.intentAt) && x.error.Some? && x.error.value.Status?
            && Definitive(x.error.value.code) && !Passing(x.error.value.code, x.error.value.quota))
      && sequel.plan.response == (if sequel.plan.failure == Some(Rejected) then body else None)
    ensures sequel.Unrecorded? <==> recorder.failed
    // a recorded call whose owner asked to cancel is stopped at once
    ensures sequel.Recorded? || sequel.StopNow? ==>
      recorder.row == Some(sequel.row) && (sequel.StopNow? <==> sequel.row.cancelRequestedAt.Some?)
  {
    if !served {
      return Fails(FailPlan(ProviderUnavailable, Failure.NotStarted, None));
    }
    if now - recorder.intentAt >= START_TIMEOUT {
      return Fails(FailPlan(StartFailed, Failure.NotStarted, None));
    }
    var started := Post(x, intent.key.streamed, recorder);
    if recorder.failed {
      return Unrecorded;
    }
    if recorder.row.None? {
      if started.Unstarted? {
        return Fails(StartFailurePlan(started.kind, body));
      }
      recorder.Record(started.id);
      if recorder.failed {
        return Unrecorded;
      }
    }
    sequel := if recorder.row.value.cancelRequestedAt.None? then Recorded(recorder.row.value) else StopNow(recorder.row.value);
  }
}
