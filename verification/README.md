# The generation lifecycle, modelled and proved

The service runs paid calls at an AI provider for its callers. Each call is one *generation*: a row that a submit
inserts, that checks settle, that its owner may cancel, and that a sweep visits when nobody polls it. Any number of
processes work on the same rows at once. They crash, freeze and lose answers, and they coordinate only through
conditional writes, each fenced on what its process had read.

This project models that lifecycle and proves what it is for: no call is paid twice, no accepted call hides behind an
outcome that says nothing ran, no cancel is lost, usage is counted once, every generation settles, and an owner's live
generations stay within its caps. `dafny verify dfyconfig.toml` checks all of it.

## How the model is laid out

- `Types`, `Store`, `Counting`, `Paging`: the rows, answers and Usage Records, and what each database statement does to
  them, as functions on values. `Database` is the same tables as an object whose methods update them in place, each
  proved against those functions.
- `Check`, `Connector`: the pure decisions. How a start error is classified, what a check concludes from what it read
  and from what the provider answered, since when a stop is wanted. `Outcomes` says, in terms of rows and answers alone,
  what a check owes its generation.
- `RecordLoop`, `Start`, `Checker`: the code's own steps in one process. The patient write of a call id, the hold of a
  creation stream, the start, one whole check, the orphan stop and the cancel.
- `Protocol` and the `Protocol...` modules: every process at once. The state holds the tables, the provider's own
  account of the calls it accepted, the requests in flight, record writes the database may finish after their client
  gave up, and every process with its stale reads. A step is one statement, one provider move, one passing of time, or
  one process leaving for good. `ProtocolInvariant` says what holds in every reachable state, `ProtocolSafety` and
  `ProtocolSteps` prove that every step keeps it, and the others draw the main results from it. `ProtocolEnds` and
  `ProtocolProgress` say what each step achieves, by the columns of its row, and give one whole run.
- `Json`, `JsonGrammar`, `JsonReads`, `JsonSpells`, `Canonical`, `Utf8`, `RequestKey`: the request key, from the text of
  a payload to the bytes that are digested.
- `Admission`: the submit's transaction, the caps, and the usage summary.
- `Sweep`, `SweepSlots`, `SweepLeader`, `Config`: the sweep's paging, the check slots its calls share, its leader role,
  and the settings it all starts with.

A run is timely when nothing in it outlasts its timeout by more than a slack: a timer may fire late, a process may be
held up, and a statement may begin as late as its client gives it up, and run for as long as the database lets it.

Times are integer nanoseconds. The state machine has one clock, which passes at one rate for every process and for the
database: the code compares instants of one clock only, so a constant difference between them changes nothing but a
refusal's wait. There, in `Admission`, the two clocks are apart.

What the provider is assumed to do: it accepts a call only for a request that fully left, it accepts nothing it answers
with a 4xx status other than 408, it changes its account of a call only until the call ends, and it reports a call
cancelled only when asked to cancel it.

## What the code does that its comments do not say

- A comment says that a start leaves within twenty seconds of its intent (`internal/core/generationCheck.go:773-775`).
  The code begins a start within twenty seconds of its intent, and the start then has twenty or thirty seconds of its
  own (lines 207 and 219). `ProtocolFrozen.LeavesExactly` says exactly when a request may leave, and
  `ProtocolFrozen.LeavesInTime` that a start always leaves within the twenty seconds exactly when its age at the guard
  and its own timeout fit them: only one that is not streamed and begins at the very instant of its intent. The three
  minutes a check waits still outlast every write of a call id: `ProtocolTiming.NoPrematureUnknown`, and
  `ProtocolFrozen.SlackExact` for how late everything may run.
- The instant a stop was first wanted moves back when an owner cancels a streamed call that was already being stopped
  for being stuck in the queue. `Check.CancelDelaysQueuedStop` says exactly when, and the example beside it is one.
- A comment takes every call cancelled without its owner's request for one stopped at its ceiling
  (`internal/core/generationCheck.go:739-742`). A cancel that lands after the read of a check that stops the call for its
  ceiling counts as no request either: the generation fails as overdue. `ProtocolEnds.EndIsRecorded` says exactly when an
  end is its owner's cancel, and `Check.CancelAfterReadExample` is one that is not.
- A refusal's wait is measured on the process's clock and the window on the database's. A resend sooner than a positive
  wait is refused again exactly when the process's clock is not behind: `Admission.WaitHolds` and
  `Admission.WaitMayEndEarly`.
- Two sweeps can lead at once once the database ended a leader's session under it, and only then:
  `SweepLeader.TwoLeadersExactly`, and `SweepLeader.TwoLeadersExample`.

## Model

| member | source | states |
|---|---|---|
| ProtocolHistory.OrphansAreUnknown | internal/core/generationCheck.go:186-392 | In every reachable state, an accepted call that its generation does not carry belongs to one still unsettled with its start intent, or failed as outcome unknown: never to one settled as if nothing ran |
| ProtocolHistory.PaidOnce | internal/core/generationSubmit.go:225-266 | Each generation's request leaves once at most, from the submit that created it, and only for a generation on record; a generation gets one call at most, and two calls of one request key are never both live or succeeded |
| ProtocolTurnedAway.TurnedAwayLeavesNothing | internal/core/generationSubmit.go:225-266 | Once a submit was answered by a replay or a refusal, the generation it would have created is never on record in any later state, nothing is ever sent for it, and no call of it is ever accepted |
| ProtocolHistory.RunGrows | internal/dao/pg.generationSettle.sql:26-44 | Along every run a call id and a cancel mark land once each, a settled row never changes again, and rows never vanish but by the purge |
| ProtocolHistory.RowsWellFormed | internal/core/generationCheck.go:734-750 | In every reachable state each row's status, failure class, call id, cancel mark, unknown mark and dates agree, and one row at most holds a request key |
| ProtocolHistory.UsageIsTheCalls | internal/core/generationCheck.go:591-671 | The usage on record is the provider's own count of the generation's one call, and a generation settled by its call's end has that usage and that answer on record, whoever recorded them |
| ProtocolHistory.TotalsMatch | internal/core/generationCheck.go:631-721 | Conservation: any set of Usage Records sums, in each of its five counts, to what as many different ended calls consumed, each record being its own call's |
| ProtocolHistory.AcceptedCallIsTracked | internal/core/generationCheck.go:277-337 | The same as OrphansAreUnknown, of any state that satisfies the invariant |
| ProtocolSteps.StepKeeps | internal/core/generationCheck.go:118-182 | Every step of every process, of the provider, of the purge and of time keeps the invariant of rows, provider and processes |
| ProtocolSteps.RunKeeps | internal/core/generationCheck.go:118-182 | The invariant holds in every state a run reaches |
| ProtocolSteps.InitHolds | internal/models/migrations/20261105194756_generation_failure_class.up.sql:1-18 | It holds at first, of a table that an earlier release left: generations without a call, settled with what their status asks for, never started, or started by processes now gone |
| ProtocolTiming.NoPrematureUnknown | internal/core/generationCheck.go:283-310 | When nothing outlasts its own timeout by more than the slack, no generation is settled without the call id some process or some abandoned statement may still write, and a record write finds its intent unsettled or its own call on record |
| ProtocolFrozen.SlackExact | internal/core/generationCheck.go:752-783 | How much slack that is, exactly: it holds of every run in which timers, processes and statements are late by 23.5 seconds at most, and with any more it fails of some run |
| ProtocolTiming.RecordWindow | internal/core/generationCheck.go:752-783 | Every write of a call id, an abandoned statement included, is over within two minutes, four seconds and nine seconds of the start, and twice the slack: before the three minutes after which a check may resolve it |
| ProtocolTiming.SendWindow | internal/core/generationCheck.go:205-220 | In every timely run a start begins within twenty seconds of its intent, and its request leaves within its own timeout of that, thirty seconds when streamed and twenty otherwise, give or take the slack |
| ProtocolFrozen.LeavesExactly | internal/core/generationCheck.go:205-220 | Both ways: a start begun at a given age of its intent can send at another exactly when the first is under twenty seconds and the second is within the start's timeout of it, and the slack |
| ProtocolFrozen.LeavesInTime | internal/core/generationCheck.go:773-775 | Exactly which starts always leave within twenty seconds of their intent: those whose age at the guard and whose timeout add up to no more |
| ProtocolFrozen.SendMayLeaveLate | internal/core/generationCheck.go:773-775 | A timely run, without any slack, whose request leaves thirty-eight seconds after its intent |
| ProtocolFrozen.FrozenStartIsOrphaned | internal/core/generationCheck.go:273-277 | Without the timing, a check can settle as unknown a generation whose start is about to write its call id: the write then finds it moved on and its call is an orphan |
| ProtocolCancel.NoCancelIsLost | internal/core/generationCancel.go:100-117 | Once an owner's cancel and the start of that generation both came back without error, the record confirmed, the generation is settled or the provider was asked to cancel exactly its call |
| ProtocolCancel.StepCancels | internal/core/generationCheck.go:256-267 | Every step keeps what makes that so: of a cancel mark and a record, the later one sees the earlier, and whoever saw both stops the call |
| ProtocolLive.LiveBounded | internal/core/generationSubmit.go:330-353 | When every submit of an owner and purpose carries a concurrency of at most c, no more than c of its generations are ever live at once, held unknown outcomes included |
| ProtocolLive.OnlySubmitsRaise | internal/dao/pg.generationCountLive.sql:1-13 | No check, cancel, purge, provider move or passing time raises the live count |
| ProtocolLive.PurgeSparesLive | internal/models/migrations/20261106011433_generation_purge_attempts_budget.up.sql:11-31 | The purge never takes a row that still counts |
| ProtocolLive.RunningCallsBounded | internal/core/generationSubmit.go:330-353 | So no more than c of an owner's calls for a purpose run at once whose generations are pending, running or unknown within their hold |
| ProtocolLive.RunningCallStands | internal/core/generationCheck.go:395-485 | Over every run, a call that has not ended has its generation unsettled, or given up: as unknown, or as gone from the provider, or as one whose answer never fit the tables |
| ProtocolSettles.OverdueSettles | internal/core/generationCheck.go:395-485 | A check that read a call past the run ceiling and the stop retry window, or an intent three minutes old without a call, settles its generation within as many of its own turns as its rank, whatever is answered or refused and whatever others do, unless it dies first or the call was recorded since |
| ProtocolSettles.TurnIsThere | internal/core/generationCheck.go:395-485 | While that check has turns left, one is always there to take |
| ProtocolSettles.ReadsOverdue | internal/core/generationCheck.go:372-392 | Every check that begins on such a row is one of those, with five turns at most |
| ProtocolEnds.EndIsRecorded | internal/core/generationCheck.go:455-485 | A check that hears of its call's end, with nobody in between, leaves that end on record with the call's answer and usage: succeeded exactly for a success, cancelled exactly for a cancelled call under the owner's mark, failed by its provider otherwise |
| ProtocolEnds.HeardEndSettles | internal/core/generationCheck.go:455-485 | Whatever others do meanwhile, a check that heard of an end the tables can hold settles the generation within two turns of its own, unless it dies first |
| ProtocolEnds.HearsPending | internal/core/generationCheck.go:427-437 | The generation is left unsettled exactly when the call is neither ended, lost nor oversized and no stop has been wanted for ten minutes; a streamed call queued for five minutes is stopped then |
| ProtocolEnds.HearsOutOfReach | internal/core/generationCheck.go:427-445 | Any other answer fails it: as unknown, unless the provider no longer holds the call |
| ProtocolProgress.Inserts | internal/core/generationSubmit.go:225-246 | A request is replayed exactly when a pending, running or succeeded row holds it, and recorded as pending and started now otherwise |
| ProtocolProgress.Admits | internal/core/generationSubmit.go:330-353 | It is admitted exactly when no usage limit is reached and its owner's live rows, its own among them, are within its concurrency; a refusal leaves no lock and no row |
| ProtocolProgress.Begins | internal/core/generationCheck.go:186-220 | A start begins exactly while its provider is served and its intent is under twenty seconds old; otherwise its generation fails as never started |
| ProtocolProgress.Fails | internal/core/generationCheck.go:341-368 | A start without a call fails its generation as rejected, as never started or as unknown, by what its error says of the request |
| ProtocolProgress.Writes | internal/dao/pg.generationRecordProviderCall.sql:1-38 | The record of a call lands exactly on a pending row that started; a first write that does not land stops its call, a later one reads the row back |
| ProtocolProgress.LosesWrite | internal/core/generationCheck.go:286-310 | A write without an answer is written again exactly while two minutes from the intent leave time for its pause, and the database may still finish it, with the effect it would have had, for nine seconds after its own timeout |
| ProtocolProgress.ReadsBack | internal/core/generationCheck.go:311-337 | A call whose row is read back without it is stopped; one whose row cannot be read is left alone |
| ProtocolProgress.StopsOrphan | internal/core/generationCheck.go:700-721 | The orphan's stop reaches the provider, and a usage it reports goes on to be counted |
| ProtocolProgress.Meters | internal/core/generationCheck.go:635-671 | An orphan's usage is counted once, when the table's constraints accept it |
| ProtocolProgress.Routes | internal/core/generationCheck.go:149-168 | What a check does with the row it read, by its columns and its age |
| ProtocolProgress.Asks | internal/core/generationCheck.go:493-529 | The call is asked to stop exactly when its owner cancelled it or it is two hours old, since the earlier of the two |
| ProtocolProgress.Marks | internal/dao/pg.generationRequestCancel.sql:9-35 | A cancel marks its owner's unsettled row, keeping the first mark, settles one that never started, and goes on to check one that carries a call |
| ProtocolProgress.AnswersLost | internal/core/generationCheck.go:591-631 | A commit or a cancel whose answer is lost has the effect it would have had |
| ProtocolProgress.Purges | internal/models/migrations/20261106011433_generation_purge_attempts_budget.up.sql:11-31 | The purge takes expired rows with their answers, and no usage |
| ProtocolProgress.Succeeds | internal/core/generationCheck.go:118-182 | For every answer and usage the tables can hold, some run ends with a generation that succeeded with them |
| Checker.StopWantedFrom | internal/core/generationCheck.go:493-529 | Since when a check wants its call stopped: the earlier of the owner's cancel and the second hour, or else the fifth minute of a streamed call still queued; that instant is unique |
| Check.StopSinceNeverLater | internal/core/generationCheck.go:488-520 | Across reads of one generation, a stop wanted by its owner or by the run ceiling stays wanted and never counts from later |
| Check.CancelDelaysQueuedStop | internal/core/generationCheck.go:504-520 | When exactly the stop of a stuck queued call counts from later after all |
| Check.CancelDelaysQueuedStopExample | internal/core/generationCheck.go:504-520 | One generation for which it does |
| Check.PastGivingUpNeverKeeps | internal/core/generationCheck.go:427-445 | Past the run ceiling and the stop retry window, every answer of the provider settles the call |
| Check.GivenUpKeepsSlot | internal/core/generationCheck.go:427-445 | A generation given up while its call may still run fails as unknown, which holds its owner's slot; one whose call ended or is gone does not |
| Check.AccountsExactly | internal/core/generationCheck.go:727-750 | Both ways, which account its caller gets for which answer |
| Check.CancelAfterReadExample | internal/core/generationCheck.go:455-467 | One generation whose owner cancelled it before it was settled, and that fails as overdue |
| Check.JudgeFits | internal/core/generationCheck.go:395-485 | Whatever a check of a recorded call decides fits the row it read |
| Check.RouteFits | internal/core/generationCheck.go:149-168 | So does what a check decides of a generation with no call to ask about |
| Check.SettledRowWellFormed | internal/dao/pg.generationSettle.sql:6-32 | A settle that fits its row is admissible, and leaves a well formed, settled, later version of it |
| Connector.AmbiguousExactly | internal/lib/connectors/openai.go:536-566 | A failed start is ambiguous exactly when its request left and no definitive refusal came back |
| Connector.RejectionExactly | internal/lib/connectors/openai.go:536-566 | Which failed start is the caller's own, with the provider's words, which ran nothing and may be sent again, and which is unknown, by status code |
| Connector.RepliesExactly | internal/lib/connectors/openai.go:589-616 | A call is lost exactly for a refusal under 500 other than 401, 403, 408 and 429; any other failure but an oversized body passes; and a stop is heard from the read after it exactly when it is refused with a 400 |
| Connector.CallOf | internal/lib/connectors/openai.go:462-525 | A completed or incomplete response is a success, an unknown status reads as running; an answer and a usage are read off ended calls only, and an ended call always has its answer |
| Connector.LateStopSettles | internal/lib/connectors/openai.go:297-328 | A stop that finds the call ended settles it with that end, its answer and its usage |
| RecordLoop.RecordCall | internal/core/generationCheck.go:277-337 | The write of a call id, for every pattern of failures: which write is the last of 28 at most, and, each both ways, when the call is on record, stopped as an orphan, left running unread, or cut short |
| RecordLoop.OneEnding | internal/core/generationCheck.go:277-337 | That contract fixes the outcome: two that meet it in one world are one |
| RecordLoop.RetriesBounded | internal/core/generationCheck.go:296-310 | No clock that advances by each pause lets a 28th retry begin |
| RecordLoop.RetriesBoundMet | internal/core/generationCheck.go:766-772 | The bound is met by a database that never answers |
| RecordLoop.PauseDoubles | internal/core/generationCheck.go:294-310 | The pauses double from 250 milliseconds and stay at five seconds from the sixth on |
| RecordLoop.OrphanWasSeen | internal/core/generationCheck.go:316-336 | A call is stopped as an orphan only when its generation was seen without it |
| Start.HoldStream | internal/lib/connectors/openai.go:336-390 | For every event sequence, the first call the stream names is recorded once, and the call returned is the one the hold ended on; without a name the start is ambiguous |
| Start.Post | internal/lib/connectors/openai.go:114-163 | Only a streamed start records before it returns, and no start returns an unnamed call: a streamed one returns the call its hold ended on, any other the call of its answer |
| Start.StartCall | internal/core/generationCheck.go:186-268 | The call the provider named is recorded exactly once on every path; only a start that named none fails, and its class says nothing ran exactly when nothing left or a definitive refusal came back |
| Start.Recorder.Record | internal/core/generationCheck.go:224-235 | One record step: the call handed over, and what the write made of it |
| Start.FirstNamedIsFirst | internal/lib/connectors/openai.go:355-381 | The call recorded is the first one named in the stream |
| Checker.GenerationCheck.Exec | internal/core/generationCheck.go:118-182 | One whole check: a recorded call's end, answer and usage are its generation's, and the row stays exactly while the call is pending; a stop is asked for exactly when it is wanted; a stale read changes nothing, and a read past its ceiling always settles |
| Checker.GenerationCheck.Observe | internal/core/generationCheck.go:395-485 | The check of a recorded call is the settle that its one answer asks for, the fallback without the refused answer included, or nothing |
| Checker.ChecksRightly | internal/core/generationCheck.go:395-485 | Whatever is heard of a call, what its check settles is what that answer and the instant its stop was first wanted ask for |
| Checker.ChecksRightlyIdle | internal/core/generationCheck.go:149-168 | Without a call: left for three minutes after a start and then failed as unknown, cancelled or failed as never started when there was none |
| Checker.FaultsSettleNothing | internal/lib/connectors/openai.go:589-616 | No refused credentials, rate limit, timeout, server fault, silence or garbled body settles a generation whose stop has been wanted for under ten minutes |
| Checker.LostSettlesFailed | internal/core/generationCheck.go:427-432 | Any other refusal, to the request that is heard, fails it at once |
| Checker.GenerationCheck.Ask | internal/core/generationCheck.go:493-529 | One question to the provider, or its stop, and since when that stop is wanted |
| Checker.GenerationCheck.Commit | internal/core/generationCheck.go:591-631 | The settle, its answer and its usage land together on the run that was read, or not at all |
| Checker.GenerationCheck.Conclude | internal/core/generationCheck.go:467-484 | So does the settle of an ended call; refused, it gives way to the bare failure exactly past the ceiling and the stop retry window |
| Checker.GenerationCheck.StopOrphan | internal/core/generationCheck.go:700-721 | The orphan's stop is asked for, and its usage recorded once if told |
| Checker.GenerationCheck.Cancel | internal/core/generationCancel.go:77-129 | A cancel leaves its owner's generation settled, stopped, or marked for the start in flight, and touches nobody else's |
| Checker.ChecksOnlyIsSafe | internal/dao/pg.generationSettle.sql:1-2 | A check of an outdated run changes nothing, and no check changes another row, a settled row, or anything already recorded |
| Database.Database.Submit | internal/dao/pg.generationSubmit.sql:19-71 | The insert, or the replay of the row that holds the key, told apart by id |
| Database.Database.RecordProviderCall | internal/dao/pg.generationRecordProviderCall.sql:1-38 | The record of a call id, on a pending started row only |
| Database.Database.RequestCancel | internal/dao/pg.generationRequestCancel.sql:9-35 | The mark, kept from the first cancel, or the settle of a row that never started |
| Database.Database.Settle | internal/dao/pg.generationSettle.sql:6-32 | The settle, fenced on the start and the call its caller observed |
| Database.Database.InsertUsage | internal/dao/pg.generationUsageInsert.go:60-104 | A Usage Record is inserted once: the first stays |
| Database.Database.InsertAttempt | internal/dao/pg.generationAttemptInsert.go:36-59 | The answer is inserted, unless the database cannot hold it |
| Database.Database.Commit | internal/core/generationCheck.go:591-631 | The transaction of the three, rolled back whole on a refusal |
| Database.Database.CountLive | internal/dao/pg.generationCountLive.sql:4-13 | The number of live generations |
| Database.Database.SumUsage | internal/dao/pg.generationUsageSum.sql:6-20 | One total per window, in the windows' order, with the oldest record |
| Database.Database.SweepPage | internal/dao/pg.generationSweep.sql:25-32 | One page of unsettled ids after a cursor, in order, short only when none is left |
| Counting.MoreIsMore | internal/dao/pg.generationUsageSum.sql:1-5 | Usage only adds up |
| Counting.LiveExactly | internal/dao/pg.generationCountLive.sql:4-13 | A row counts exactly when it is its owner's and purpose's, and pending, running, or marked unknown for under fifteen minutes |
| Counting.HeldExactly | internal/dao/pg.generationUsageSum.sql:6-20 | A window holds exactly its owner's and purpose's records written since it began |
| Admission.Admit | internal/core/generationSubmit.go:330-380 | The ruling on a new submit is the one that its caps allow |
| Admission.OneRuling | internal/core/generationSubmit.go:361-379 | One state gives one ruling, in whatever order the windows are listed: live generations before usage, the shortest spent window, input before output |
| Admission.AdmittedExactly | internal/core/generationSubmit.go:330-411 | A submit is admitted exactly when no more rows than its concurrency are in flight and every window's limits are above what its records add up to |
| Admission.RefusedExactly | internal/core/generationSubmit.go:330-411 | Otherwise, which refusal: how many others are in flight, or the shortest window over a limit, for its input when that is, and the time until its first record leaves it |
| Admission.Submit | internal/core/generationSubmit.go:225-246 | A held key is replayed whatever the caps; any other request is recorded exactly when it is admitted, and a refusal leaves nothing |
| Admission.Summarize | internal/core/usageSummary.go:74-119 | The live count and the totals of the windows asked for |
| Admission.SummaryPredicts | internal/core/usageSummary.go:60-61 | A summary of the same state predicts the verdict on a new request, both ways |
| Admission.WaitHolds | internal/core/generationSubmit.go:402-406 | With a process clock not behind the database's, a resend sooner than a positive wait is refused again |
| Admission.WaitFreesTheOldest | internal/core/generationSubmit.go:402-406 | And where the clocks agree the wait is no longer than it must be: once it is over, the window's oldest record has left |
| Admission.WaitMayEndEarly | internal/core/generationSubmit.go:402-406 | With one behind by any amount, such a resend can be admitted |
| JsonReads.SpelledReads | internal/core/generationSubmit.go:301-306 | However a value is spelled, with whatever whitespace and escapes, the reader reads that value |
| JsonSpells.ValueSpelled | internal/core/generationSubmit.go:301-306 | The reader takes nothing else: whatever it reads, its text spells |
| JsonGrammar.NumbersExactly | internal/core/generationSubmit.go:301-306 | A number is what section 6 of RFC 8259 makes it: a sign or none, a whole part without leading zeros, a fraction or none, an exponent or none |
| JsonGrammar.LettersExactly | internal/core/generationSubmit.go:301-306 | A string's letters are what section 7 makes them: as they are, by eight signs, by a code unit that is no surrogate, or by the surrogate pair of a character beyond the first plane |
| JsonGrammar.UnitsExactly | internal/core/generationSubmit.go:301-306 | Four hexadecimal digits of either case name the code unit they are in base sixteen |
| JsonGrammar.SpaceExactly | internal/core/generationSubmit.go:301-306 | Four characters are space, and reading passes over them |
| Canonical.SameCanonicalForm | internal/core/generationSubmit.go:479-506 | Two payloads have one canonical form exactly when they hold the same top-level members in whatever order: nested order and number literals count, whitespace and escapes do not |
| Canonical.CanonicalIsFixed | internal/core/generationSubmit.go:479-506 | A canonical form is a payload of the same request, and its own canonical form |
| Canonical.CanonicalLayout | internal/core/generationSubmit.go:479-506 | The canonical form is the payload's members, in their names' order, without any whitespace |
| Canonical.WrittenIsCompact | internal/core/generationSubmit.go:479-506 | Values inside keep their own order and are written without whitespace |
| Canonical.BeforeIsLexicographic | internal/core/generationSubmit.go:479-506 | The names' order is that of dictionaries |
| Canonical.EscapesFixed | internal/core/generationSubmit_test.go:636-648 | Each character has one spelling: as it is, or escaped when it is a quote, a backslash, a control character, an HTML character or a line separator |
| Canonical.RespelledIsSame | internal/core/generationSubmit.go:479-506 | Every spelling of one object is one payload |
| Canonical.PayloadIsSpelled | internal/core/generationSubmit.go:301-306 | And a payload's text is a spelling of its object, with space around it |
| Canonical.CanonicalPayload | internal/core/generationSubmit.go:483-506 | The loop over the members map computes the canonical form, whatever order it walks the map in |
| RequestKey.PreimageInjective | internal/core/generationSubmit.go:443-477 | Fields behind their lengths give the same bytes exactly when they are the same fields |
| RequestKey.PreimageReads | internal/core/generationSubmit.go:459-476 | The digested bytes decode back to the fields |
| RequestKey.KeyLayout | internal/core/generationSubmit.go:449-477 | Exactly which bytes are digested: seven fields from the tag to the variant, in one order, each behind the eight bytes of its length |
| RequestKey.PreimageIdentifies | internal/core/generationSubmit.go:443-477 | Two submissions digest the same bytes exactly when they are the same request |
| RequestKey.EmptyIsSubmittable | internal/core/generationSubmit.go:301-306 | Something can be submitted: an empty object, for one |
| RequestKey.KeyIdentifies | internal/core/generationSubmit.go:443-477 | So do their keys, under any hash without collisions |
| RequestKey.IdentityStandsForKey | internal/core/generationSubmit.go:443-477 | The tuple that the rest of the model compares in place of keys is equal exactly when the keys are |
| RequestKey.Feed | internal/core/generationSubmit.go:468-476 | The loop through one reused length buffer feeds those bytes |
| RequestKey.DigestRequest | internal/core/generationSubmit.go:449-477 | The key's whole derivation |
| Sweep.Run | internal/core/generationSweep.go:120-143 | Ids read only go up; what is read is every page up to the first short one, and the run is whole exactly when it met that one, having read every generation unsettled throughout it; it ends before that only when ended, out of time or refused a page |
| Sweep.SmallBacklogIsRead | internal/core/generationSweep.go:120-143 | One generation in flight and nothing in the way is read, and the run is whole after one page |
| Paging.UnsettledExactly | internal/dao/pg.generationSweep.sql:25-32 | A sweep looks for pending and running rows, and no others |
| Sweep.QueriesBounded | internal/core/generationSweep.go:120-143 | With none inserted meanwhile, the number of pages is bounded by the generations there were |
| SweepSlots.ChecksBounded | internal/core/generationSweep.go:149-212 | However many calls overlap, no more checks run than there are slots, a call that answered left none running, and each started early enough for its caller's deadline |
| SweepSlots.SlotsReturned | internal/core/generationSweep.go:168-195 | No path keeps a slot |
| SweepSlots.HeldSlotStarts | internal/core/generationSweep.go:168-206 | A call that has its slot in time starts its check |
| SweepSlots.GivesUpOnly | internal/core/generationSweep.go:168-195 | Only a call that ended, or has no time left, gives up the rest of its page |
| SweepSlots.PagesDispatched | internal/core/generationSweep.go:149-195 | Over every run, a call waiting for its checks has started one for each generation of its page, unless it gave the rest up |
| SweepSlots.PagesFollow | internal/core/generationSweep.go:120-143 | And then it reads its next page, or answers |
| SweepSlots.StepKeeps | internal/core/generationSweep.go:149-206 | Every slot taken is a running check, or held by a call about to start one |
| SweepLeader.OneLeader | internal/dao/pg.generationSweepLock.go:55-89 | Over every sequence of outcomes, one session at most holds the role, none in the pool does, and after its sweep only a session closed for good may, until the database ends it |
| SweepLeader.Locks | internal/dao/pg.generationSweepLock.go:55-89 | The role is granted exactly when no other session holds it; a sweep leads exactly when it was told so, and a session is closed for good exactly when its answer was lost |
| SweepLeader.Unlocks | internal/dao/pg.generationSweepUnlock.go:35-62 | Only a session that answered that it released the role goes back to the pool |
| SweepLeader.TwoLeaders | internal/dao/pg.generationSweepUnlock.go:35-62 | Of two sweeps that lead at once, one at least leads on a session the database ended |
| SweepLeader.TwoLeadersExactly | internal/dao/pg.generationSweepLock.go:55-89 | Both ways, from every reachable state: while the database ends no session that a sweep has in hand, two sweeps can come to lead at once exactly when it ended one under a leader before |
| SweepLeader.TwoLeadersExample | internal/dao/pg.generationSweepLock.go:39-44 | One run in which two do |
| Config.RetentionOutlastsHold | internal/config/app.config.go:24-28 | A row can be purged while it counts exactly under a retention that is refused, but for the one that falls a single instant short |
| Config.ValidExactly | internal/config/app.config.go:106-119 | Which settings a service starts with |

## Left out

- SQL text, indexes, isolation levels and connection pooling: each statement is one atomic step with the effect its text states, and submits of one owner are serialised by the owner lock.
- HTTP, the OpenAI SDK and server-sent events: an exchange is what the connector's code sees of it, an error, an unreadable event or a described call.
- SHA-256: any hash without collisions, given as a parameter.
- Event forwarding, tracing, logging, error wording, gRPC, REST, service tokens and environment loading: no state rests on them.
- The provider, model, class, tier and timestamps of a Usage Record, and the 64-bit width of its sums.
- The depth limit of the JSON decoder, and byte sequences that are not valid UTF-8: a text is a sequence of Unicode scalar values. Unpaired surrogate escapes and repeated member names are refused as the code refuses them.
- The payload size ceiling, the declared purposes and the registered providers that a submit validates before it does anything.
- A streamed start's hold after its call was recorded, in the state machine: it is only a delay there. `Start.HoldStream` models it.
- A transient database error other than a record write's, in the state machine: the process leaves, as it answers an error and does nothing more. A later check starts afresh.
- A commit whose answer is lost, after which the process leaves. The next check reads what landed.
- The thousand rows and the byte budget of one purge: a purge takes any set of expired rows.
- ProtocolSteps.InitHolds: at first no row carries a call, and every failed row has its class. Rows that an earlier release left running, or settled with a call's answer and usage, and those it failed before there were classes, are not part of this model.
- The owner, the purpose, the provider and the streaming flag of a row, in the state machine, are those of its request key, which digests them.
- Checker.GenerationCheck.Exec: no other process moves between its steps. The state machine interleaves them.
- RecordLoop.RecordCall: the answers of the writes and the read-back are given, not computed from a table. The state machine computes them.
- Sweep.Run: the checks of a page are not run here. Their dispatch is `SweepSlots`, as a state machine in place of goroutines and a channel.
- SweepLeader.OneLeader: sessions, the pool and the lock are a state machine in place of an object, since what is proved is over every order of many sweeps' steps.
- Start.StartCall: the database behind the recorder is the world of `RecordLoop`, so the settle of a failed start is `Checker`'s.
