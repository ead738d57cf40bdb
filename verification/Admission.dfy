/** Who is admitted: a submit records its generation, or replays one, or is refused by its caller's caps. */
module Admission {
  import opened Types
  import opened Counting
  import opened Database
  import S = Store

  /** A cap on the tokens consumed over a rolling window. None sets no limit. */
  datatype Window = Window(duration: Time, input: Option<int>, output: Option<int>)

  datatype Caps = Caps(concurrency: Option<int>, windows: seq<Window>)

  datatype Tokens = Input | Output

  datatype Ruling =
    | Admitted
    | TooManyLive(inFlight: int)
    | UsedUp(window: Window, tokens: Tokens, retryAfter: Time)

  /** What the caller's validation guarantees: one window per duration, and no window in the future. */
  predicate ValidCaps(caps: Caps) {
    && (forall i, j :: 0 <= i < j < |caps.windows| ==> caps.windows[i].duration != caps.windows[j].duration)
    && (forall i :: 0 <= i < |caps.windows| ==> caps.windows[i].duration > 0)
  }

  predicate Reached(limit: Option<int>, used: int) {
    limit.Some? && used >= limit.value
  }

  predicate Exceeded(w: Window, used: Totals) {
    Reached(w.input, used.input) || Reached(w.output, used.output)
  }

  // ---------- what admission means ----------

  /** The tables as one admission reads them: the clock is that of its transaction's start. */
  datatype View = View(
    rows: map<GenId, Generation>, usage: map<GenId, UsageRecord>, owner: seq<byte>, purpose: seq<byte>, at: Time)

  ghost predicate Crowded(v: View, caps: Caps) {
    caps.concurrency.Some? && |Live(v.rows, v.owner, v.purpose, v.at)| > caps.concurrency.value
  }

  function RecordsOf(v: View, w: Window): set<GenId> {
    Held(v.usage, v.owner, v.purpose, v.at - w.duration)
  }

  ghost predicate InputReached(v: View, w: Window) {
    Reached(w.input, InputOf(v.usage, RecordsOf(v, w)))
  }

  ghost predicate OutputReached(v: View, w: Window) {
    Reached(w.output, OutputOf(v.usage, RecordsOf(v, w)))
  }

  ghost predicate WindowSpent(v: View, w: Window) {
    InputReached(v, w) || OutputReached(v, w)
  }

  /** The record is the first to leave the window. */
  ghost predicate First(v: View, w: Window, g: GenId) {
    g in RecordsOf(v, w) && forall h :: h in RecordsOf(v, w) ==> v.usage[g].createdAt <= v.usage[h].createdAt
  }

  /** The wait that a refusal tells: until the oldest record leaves the window, by the process's clock. */
  ghost predicate Waits(v: View, w: Window, clock: Time, retryAfter: Time) {
    exists oldest :: Oldest(v.usage, RecordsOf(v, w), oldest) && retryAfter == WaitFor(oldest, w, clock)
  }

  function WaitFor(oldest: Option<Time>, w: Window, clock: Time): Time {
    if oldest.None? || oldest.value + w.duration < clock then 0 else oldest.value + w.duration - clock
  }

  /** The one ruling that caps allow: live generations before usage, shorter windows before longer ones, input before
    * output. */
  ghost predicate Rules(v: View, caps: Caps, clock: Time, ruling: Ruling) {
    match ruling
    case Admitted => !Crowded(v, caps) && forall w :: w in caps.windows ==> !WindowSpent(v, w)
    case TooManyLive(inFlight) => Crowded(v, caps) && inFlight == |Live(v.rows, v.owner, v.purpose, v.at)| - 1
    case UsedUp(w, tokens, retryAfter) =>
      && !Crowded(v, caps) && w in caps.windows && WindowSpent(v, w)
      && (forall u :: u in caps.windows && WindowSpent(v, u) ==> w.duration <= u.duration)
      && (tokens == Input <==> InputReached(v, w))
      && Waits(v, w, clock, retryAfter)
  }

  lemma WaitsOnce(v: View, w: Window, clock: Time, a: Time, b: Time)
    requires Waits(v, w, clock, a) && Waits(v, w, clock, b)
    ensures a == b
  {
    var x :| Oldest(v.usage, RecordsOf(v, w), x) && a == WaitFor(x, w, clock);
    var y :| Oldest(v.usage, RecordsOf(v, w), y) && b == WaitFor(y, w, clock);
    if x.Some? && y.Some? {
      var g :| g in RecordsOf(v, w) && v.usage[g].createdAt == x.value;
      var h :| h in RecordsOf(v, w) && v.usage[h].createdAt == y.value;
    }
  }

  lemma SameDuration(caps: Caps, w: Window, u: Window)
    requires ValidCaps(caps) && w in caps.windows && u in caps.windows && w.duration == u.duration
    ensures w == u
  {
    var i :| 0 <= i < |caps.windows| && caps.windows[i] == w;
    var j :| 0 <= j < |caps.windows| && caps.windows[j] == u;
    assert i == j;
  }

  /** One state gives one ruling, in whatever order the caller lists its windows. */
  lemma OneRuling(v: View, a: Caps, b: Caps, clock: Time, ra: Ruling, rb: Ruling)
    requires ValidCaps(a) && ValidCaps(b)
    requires a.concurrency == b.concurrency && forall w :: w in a.windows <==> w in b.windows
    requires Rules(v, a, clock, ra) && Rules(v, b, clock, rb)
    ensures ra == rb
  {
    if ra.UsedUp? && rb.UsedUp? {
      SameDuration(a, ra.window, rb.window);
      WaitsOnce(v, ra.window, clock, ra.retryAfter, rb.retryAfter);
    }
  }

  /** The generations of an owner and purpose pending, running or unknown for less than a quarter of an hour. */
  function InFlight(v: View): set<GenId> {
    set g | g in v.rows && v.rows[g].key.owner == v.owner && v.rows[g].key.purpose == v.purpose
            && (|| v.rows[g].status == Pending || v.rows[g].status == Running
                || (v.rows[g].outcomeUnknownAt.Some? && v.rows[g].outcomeUnknownAt.value > v.at - 15 * MINUTE))
  }

  /** The records of an owner and purpose written since a window began. */
  function WrittenIn(v: View, duration: Time): set<GenId> {
    set g | g in v.usage && v.usage[g].owner == v.owner && v.usage[g].purpose == v.purpose
            && v.usage[g].createdAt > v.at - duration
  }

  ghost predicate Within(v: View, w: Window) {
    && (w.input.Some? ==> InputOf(v.usage, WrittenIn(v, w.duration)) < w.input.value)
    && (w.output.Some? ==> OutputOf(v.usage, WrittenIn(v, w.duration)) < w.output.value)
  }

  lemma ColumnsTell(v: View)
    ensures Live(v.rows, v.owner, v.purpose, v.at) == InFlight(v)
    ensures forall w :: RecordsOf(v, w) == WrittenIn(v, w.duration)
    ensures forall w :: WindowSpent(v, w) <==> !Within(v, w)
  {
    hide InputOf, OutputOf;
    forall w: Window ensures RecordsOf(v, w) == WrittenIn(v, w.duration) {}
  }

  /** When a submit is admitted, by the columns of the tables: no more rows in flight than the concurrency, and every
    * window's limits above what its records add up to. */
  lemma AdmittedExactly(v: View, caps: Caps, clock: Time)
    ensures Rules(v, caps, clock, Admitted) <==>
      && (caps.concurrency.Some? ==> |InFlight(v)| <= caps.concurrency.value)
      && (forall w :: w in caps.windows ==> Within(v, w))
  {
    ColumnsTell(v);
    hide InFlight, Within, WindowSpent;
  }

  /** The wait until this record leaves the window. */
  predicate LeavesIn(v: View, w: Window, clock: Time, g: GenId, wait: Time)
    requires g in v.usage
  {
    wait == if v.usage[g].createdAt + w.duration < clock then 0 else v.usage[g].createdAt + w.duration - clock
  }

  /** Which refusal it is otherwise: how many others are in flight, or the shortest window that is over a limit, for its
    * input when that is, and the time until the first of its records leaves it. */
  lemma RefusedExactly(v: View, caps: Caps, clock: Time, ruling: Ruling)
    requires Rules(v, caps, clock, ruling)
    ensures ruling.TooManyLive? <==> caps.concurrency.Some? && |InFlight(v)| > caps.concurrency.value
    ensures ruling.TooManyLive? ==> ruling.inFlight + 1 == |InFlight(v)|
    ensures ruling.UsedUp? ==>
      var w := ruling.window;
      && w in caps.windows && !Within(v, w)
      && (forall u :: u in caps.windows && u.duration < w.duration ==> Within(v, u))
      && (ruling.tokens.Input? <==> w.input.Some? && InputOf(v.usage, WrittenIn(v, w.duration)) >= w.input.value)
      && (WrittenIn(v, w.duration) == {} ==> ruling.retryAfter == 0)
      && (WrittenIn(v, w.duration) != {} ==> exists g :: First(v, w, g) && LeavesIn(v, w, clock, g, ruling.retryAfter))
  {
    ColumnsTell(v);
    hide InputOf, OutputOf, InFlight;
    if ruling.UsedUp? && WrittenIn(v, ruling.window.duration) != {} {
      var w := ruling.window;
      var oldest :| Oldest(v.usage, RecordsOf(v, w), oldest) && ruling.retryAfter == WaitFor(oldest, w, clock);
      var g :| g in RecordsOf(v, w) && v.usage[g].createdAt == oldest.value;
      assert First(v, w, g);
    }
  }

  // ---------- admission as it runs ----------

  function InsertByDuration(w: Window, sorted: seq<Window>): (r: seq<Window>)
    ensures multiset(r) == multiset(sorted) + multiset{w}
  {
    if sorted == [] then [w]
    else if sorted[0].duration < w.duration then
      assert sorted == [sorted[0]] + sorted[1..];
      [sorted[0]] + InsertByDuration(w, sorted[1..])
    else [w] + sorted
  }

  predicate ByDuration(windows: seq<Window>) {
    forall i, j :: 0 <= i < j < |windows| ==> windows[i].duration <= windows[j].duration
  }

  lemma SameWindows(a: seq<Window>, b: seq<Window>)
    requires multiset(a) == multiset(b)
    ensures forall w :: w in a <==> w in b
  {
    forall w ensures w in a <==> w in b {
      assert w in a <==> w in multiset(a);
      assert w in b <==> w in multiset(b);
    }
  }

  lemma {:induction false} InsertedByDuration(w: Window, sorted: seq<Window>)
    requires ByDuration(sorted)
    ensures ByDuration(InsertByDuration(w, sorted))
  {
    if sorted != [] && sorted[0].duration < w.duration {
      var tail := InsertByDuration(w, sorted[1..]);
      InsertedByDuration(w, sorted[1..]);
      SameWindows(tail, sorted[1..] + [w]);
      hide InsertByDuration;
      forall u | u in tail ensures sorted[0].duration <= u.duration {
        assert u in sorted[1..] + [w];
      }
      LedByDuration(sorted[0], tail);
    }
  }

  lemma LedByDuration(w: Window, windows: seq<Window>)
    requires ByDuration(windows) && forall u :: u in windows ==> w.duration <= u.duration
    ensures ByDuration([w] + windows)
  {
    forall j | 0 <= j < |windows| ensures w.duration <= windows[j].duration { assert windows[j] in windows; }
  }

  method SortWindows(windows: seq<Window>) returns (sorted: seq<Window>)
    ensures multiset(sorted) == multiset(windows) && ByDuration(sorted)
  {
    sorted := [];
    var i := 0;
    while i < |windows|
      invariant 0 <= i <= |windows| && ByDuration(sorted) && multiset(sorted) == multiset(windows[..i])
    {
      InsertedByDuration(windows[i], sorted);
      sorted := InsertByDuration(windows[i], sorted);
      assert windows[..i + 1] == windows[..i] + [windows[i]];
      i := i + 1;
    }
    assert windows[..i] == windows;
  }

  /** The refusal of one window, when it is spent: for its input, or else for its output. */
  function WindowRefusal(w: Window, used: Totals, clock: Time): Option<Ruling> {
    if Reached(w.input, used.input) then Some(UsedUp(w, Input, WaitFor(used.oldest, w, clock)))
    else if Reached(w.output, used.output) then Some(UsedUp(w, Output, WaitFor(used.oldest, w, clock)))
    else None
  }

  function ViewOf(db: Database, owner: seq<byte>, purpose: seq<byte>, at: Time): View
    reads db
  {
    View(db.rows, db.usage, owner, purpose, at)
  }

  method Admit(db: Database, owner: seq<byte>, purpose: seq<byte>, caps: Caps, at: Time, clock: Time)
    returns (ruling: Ruling)
    requires ValidCaps(caps)
    ensures Rules(ViewOf(db, owner, purpose, at), caps, clock, ruling)
  {
    if caps.concurrency.Some? {
      var live := db.CountLive(owner, purpose, at);
      if live > caps.concurrency.value {
        return TooManyLive(live - 1);
      }
    }
    var windows := SortWindows(caps.windows);
    SameWindows(windows, caps.windows);
    var used := db.SumUsage(owner, purpose, at, Durations(windows));
    ghost var v := ViewOf(db, owner, purpose, at);
    var i := 0;
    while i < |windows|
      invariant 0 <= i <= |windows|
      invariant forall j :: 0 <= j < i ==> !WindowSpent(v, windows[j])
    {
      assert Sums(v.usage, RecordsOf(v, windows[i]), used[i]);
      var refusal := WindowRefusal(windows[i], used[i], clock);
      if refusal.Some? {
        assert Waits(v, windows[i], clock, refusal.value.retryAfter);
        FirstSpent(v, windows, i);
        return refusal.value;
      }
      i := i + 1;
    }
    ruling := Admitted;
  }

  function Durations(windows: seq<Window>): seq<Time> {
    seq(|windows|, (i: nat) requires i < |windows| => windows[i].duration)
  }

  lemma FirstSpent(v: View, windows: seq<Window>, i: nat)
    requires ByDuration(windows) && i < |windows| && forall j :: 0 <= j < i ==> !WindowSpent(v, windows[j])
    ensures forall u :: u in windows && WindowSpent(v, u) ==> windows[i].duration <= u.duration
  {
    forall u | u in windows && WindowSpent(v, u) ensures windows[i].duration <= u.duration {
      var j :| 0 <= j < |windows| && windows[j] == u;
    }
  }

  // ---------- the submit's transaction ----------

  datatype Submitted = Created(row: Generation) | Replayed(row: Generation) | TurnedAway(ruling: Ruling)

  /** Recording and admission commit together: a refusal takes its generation back with it. */
  method Submit(db: Database, id: GenId, key: Identity, caps: Caps, at: Time, txAt: Time, clock: Time)
    returns (submitted: Submitted)
    requires ValidCaps(caps) && id !in db.rows && forall g :: g in db.rows ==> db.rows[g].id == g
    modifies db
    // a request whose key is held is replayed, whatever the caps, and nothing is recorded
    ensures submitted.Replayed? <==> S.KeyTaken(old(db.rows), key)
    ensures submitted.Replayed? ==>
      submitted.row.id in db.rows && db.rows[submitted.row.id] == submitted.row && submitted.row.key == key
    // any other is ruled on with its own row counted in, and recorded exactly when it is admitted
    ensures !submitted.Replayed? ==>
      var v := View(old(db.rows)[id := S.NewRow(id, key, at)], old(db.usage), key.owner, key.purpose, txAt);
      Rules(v, caps, clock, if submitted.TurnedAway? then submitted.ruling else Admitted)
    ensures submitted.TurnedAway? ==> !submitted.ruling.Admitted?
    ensures submitted.Created? ==>
      submitted.row == S.NewRow(id, key, at) && db.rows == old(db.rows)[id := submitted.row]
    ensures !submitted.Created? ==> db.rows == old(db.rows)
    ensures db.attempts == old(db.attempts) && db.usage == old(db.usage)
  {
    var rows0 := db.rows;
    var row, created := db.Submit(id, key, at);
    if !created {
      return Replayed(row);
    }
    var ruling := Admit(db, key.owner, key.purpose, caps, txAt, clock);
    if ruling.Admitted? {
      return Created(row);
    }
    db.rows := rows0;
    submitted := TurnedAway(ruling);
  }

  // ---------- the usage summary ----------

  /** What a caller is shown of its user's usage, one total per window it asked for. */
  datatype Summary = Summary(live: nat, windows: seq<Totals>)

  method Summarize(db: Database, owner: seq<byte>, purpose: seq<byte>, at: Time, durations: seq<Time>)
    returns (summary: Summary)
    ensures summary.live == |Live(db.rows, owner, purpose, at)| && |summary.windows| == |durations|
    ensures forall i :: 0 <= i < |durations| ==>
      Sums(db.usage, Held(db.usage, owner, purpose, at - durations[i]), summary.windows[i])
  {
    var live := db.CountLive(owner, purpose, at);
    var used := db.SumUsage(owner, purpose, at, durations);
    var windows: seq<Totals> := [];
    while |windows| < |durations|
      invariant |windows| <= |durations| && windows == used[..|windows|]
    {
      windows := windows + [used[|windows|]];
    }
    summary := Summary(live, windows);
  }

  /** The room left under the caps, as a caller reads it off a summary of their windows. */
  predicate HasRoom(summary: Summary, caps: Caps)
    requires |summary.windows| == |caps.windows|
  {
    && (caps.concurrency.Some? ==> summary.live + 1 <= caps.concurrency.value)
    && forall i :: 0 <= i < |caps.windows| ==> !Exceeded(caps.windows[i], summary.windows[i])
  }

  lemma NewRowCounts(rows: map<GenId, Generation>, id: GenId, key: Identity, at: Time, txAt: Time)
    requires id !in rows
    ensures |Live(rows[id := S.NewRow(id, key, at)], key.owner, key.purpose, txAt)|
      == |Live(rows, key.owner, key.purpose, txAt)| + 1
  {
    var more := Live(rows[id := S.NewRow(id, key, at)], key.owner, key.purpose, txAt);
    assert more == Live(rows, key.owner, key.purpose, txAt) + {id};
  }

  /** A summary of the same state predicts the verdict on a new request exactly. */
  lemma SummaryPredicts(rows: map<GenId, Generation>, usage: map<GenId, UsageRecord>, id: GenId, key: Identity,
                        caps: Caps, summary: Summary, at: Time, txAt: Time, clock: Time, ruling: Ruling)
    requires id !in rows && |summary.windows| == |caps.windows|
    requires summary.live == |Live(rows, key.owner, key.purpose, txAt)|
    requires forall i :: 0 <= i < |caps.windows| ==>
      Sums(usage, Held(usage, key.owner, key.purpose, txAt - caps.windows[i].duration), summary.windows[i])
    requires Rules(View(rows[id := S.NewRow(id, key, at)], usage, key.owner, key.purpose, txAt), caps, clock, ruling)
    ensures ruling.Admitted? <==> HasRoom(summary, caps)
  {
    NewRowCounts(rows, id, key, at, txAt);
    var v := View(rows[id := S.NewRow(id, key, at)], usage, key.owner, key.purpose, txAt);
    forall i | 0 <= i < |caps.windows|
      ensures WindowSpent(v, caps.windows[i]) <==> Exceeded(caps.windows[i], summary.windows[i])
    {
    }
    if ruling.UsedUp? {
      var i :| 0 <= i < |caps.windows| && caps.windows[i] == ruling.window;
      assert WindowSpent(v, caps.windows[i]);
    }
    if ruling.Admitted? {
      forall i | 0 <= i < |caps.windows| ensures !Exceeded(caps.windows[i], summary.windows[i]) {
        assert caps.windows[i] in caps.windows;
      }
    }
  }

  // ---------- the wait a refusal tells ----------

  /** The records one state has, a later one keeps, and usage is never negative. */
  ghost predicate UsageGrows(before: map<GenId, UsageRecord>, after: map<GenId, UsageRecord>) {
    NonNegative(after) && forall g :: g in before ==> g in after && after[g] == before[g]
  }

  /** While the oldest record of a spent window is still in it, the window stays spent. */
  lemma SpentStays(v: View, later: View, w: Window)
    requires WindowSpent(v, w) && UsageGrows(v.usage, later.usage) && v.at <= later.at
    requires v.owner == later.owner && v.purpose == later.purpose
    requires forall g :: g in RecordsOf(v, w) ==> v.usage[g].createdAt > later.at - w.duration
    ensures WindowSpent(later, w)
  {
    MoreIsMore(v.usage, RecordsOf(v, w), later.usage, RecordsOf(later, w));
  }

  /** With a process clock that is not behind the database's, a resend sooner than a positive wait is refused again:
    * the caps, the owner and the purpose being the same, and its transaction starting `elapsed` after the refusal was
    * written, on the database's clock. */
  lemma WaitHolds(v: View, later: View, caps: Caps, clock: Time, skew: Time, elapsed: Time,
                  w: Window, tokens: Tokens, retryAfter: Time, ruling: Ruling)
    requires Rules(v, caps, clock, UsedUp(w, tokens, retryAfter)) && 0 <= elapsed < retryAfter
    requires UsageGrows(v.usage, later.usage) && v.owner == later.owner && v.purpose == later.purpose
    requires v.at <= clock - skew && later.at == clock - skew + elapsed
    requires skew >= 0
    requires Rules(later, caps, clock + elapsed, ruling)
    ensures !ruling.Admitted?
  {
    var oldest :| Oldest(v.usage, RecordsOf(v, w), oldest) && retryAfter == WaitFor(oldest, w, clock);
    SpentStays(v, later, w);
  }

  /** The wait is no longer than it needs to be: where the clocks agree, once it is over the oldest record has left the
    * window. */
  lemma WaitFreesTheOldest(v: View, later: View, caps: Caps, clock: Time, w: Window, tokens: Tokens, retryAfter: Time)
    requires Rules(v, caps, clock, UsedUp(w, tokens, retryAfter)) && RecordsOf(v, w) != {}
    requires UsageGrows(v.usage, later.usage) && v.owner == later.owner && v.purpose == later.purpose
    requires v.at <= clock && later.at >= clock + retryAfter
    ensures retryAfter >= 0
    ensures exists g :: First(v, w, g) && g !in RecordsOf(later, w)
  {
    var oldest :| Oldest(v.usage, RecordsOf(v, w), oldest) && retryAfter == WaitFor(oldest, w, clock);
    var g :| g in RecordsOf(v, w) && v.usage[g].createdAt == oldest.value;
    assert First(v, w, g) && g !in RecordsOf(later, w);
  }

  /** With a process clock behind the database's, by however little, a resend that soon can be admitted. */
  lemma WaitMayEndEarly(owner: seq<byte>, purpose: seq<byte>, skew: Time)
    returns (v: View, later: View, caps: Caps, clock: Time, elapsed: Time, refusal: Ruling)
    requires skew < 0
    ensures refusal.UsedUp? && 0 <= elapsed < refusal.retryAfter && ValidCaps(caps)
    ensures Rules(v, caps, clock, refusal)
    ensures v.owner == later.owner && v.purpose == later.purpose && UsageGrows(v.usage, later.usage)
    ensures v.at <= clock - skew && later.at == clock - skew + elapsed
    ensures Rules(later, caps, clock + elapsed, Admitted)
  {
    var w := Window(MINUTE, Some(1), None);
    caps := Caps(None, [w]);
    var usage := map[0 := UsageRecord(owner, purpose, Usage(1, 0, 0, 0, 0), 0)];
    v := View(map[], usage, owner, purpose, 0);
    clock := skew;
    elapsed := MINUTE;
    later := View(map[], usage, owner, purpose, MINUTE);
    refusal := UsedUp(w, Input, MINUTE - skew);
    assert RecordsOf(v, w) == {0};
    InputPick(usage, {0}, 0);
    OutputPick(usage, {0}, 0);
    assert {0} - {0} == {};
    assert InputOf(usage, {0}) == 1;
    assert Oldest(usage, {0}, Some(0)) && WaitFor(Some(0), w, clock) == MINUTE - skew;
    assert RecordsOf(later, w) == {};
    assert InputOf(usage, {}) == 0;
    assert w in caps.windows && forall u :: u in caps.windows ==> u == w;
  }
}
