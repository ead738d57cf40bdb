/** The sweep: every unsettled generation read once, page after page, while others settle and appear. */
module Sweep {
  import opened Types
  import opened Paging
  import opened Database

  /** What the sweep meets: the tables as each page finds them, whether each query answers, and when it must end. */
  datatype World = World(
    unsettled: nat -> set<GenId>, pages: nat -> seq<GenId>, fails: nat -> bool, ended: nat -> bool, starts: nat -> bool)

  datatype End = Whole | Stopped | Broke

  /** Each query answers a page of the table as it stands then. Ids are 128 bits, and none is nil. */
  ghost predicate Faithful(world: World, limit: nat, top: GenId) {
    && limit > 0
    && (forall k: nat, g: GenId :: g in world.unsettled(k) ==> 0 < g <= top)
    && (forall k: nat :: AnswersPage(world, k, limit))
  }

  ghost predicate AnswersPage(world: World, k: nat, limit: nat) {
    IsPage(world.pages(k), world.unsettled(k), CursorOf(world, k), limit)
  }

  /** The cursor of query `k`: the last generation of the page before. */
  function CursorOf(world: World, k: nat): GenId {
    if k == 0 || world.pages(k - 1) == [] then 0 else world.pages(k - 1)[|world.pages(k - 1)| - 1]
  }

  /** What the pages read so far, and the cursor they leave, say of every generation. */
  ghost predicate ReadUpTo(world: World, k: nat, read: seq<GenId>, after: GenId) {
    && Increasing(read)
    && (forall i :: 0 <= i < |read| ==> 0 < read[i] <= after)
    && (forall g :: g in read ==> exists j: nat :: j < k && g in world.unsettled(j))
    && (forall g :: 0 < g <= after && (forall j: nat :: j < k ==> g in world.unsettled(j)) ==> k == 0 || g in read)
  }

  lemma ReadOn(world: World, k: nat, read: seq<GenId>, after: GenId, page: seq<GenId>, limit: nat)
    requires ReadUpTo(world, k, read, after) && IsPage(page, world.unsettled(k), after, limit) && page != []
    requires k == 0 ==> after == 0
    ensures ReadUpTo(world, k + 1, read + page, page[|page| - 1])
  {
    var longer, cursor := read + page, page[|page| - 1];
    forall i | 0 <= i < |longer| ensures 0 < longer[i] <= cursor {
      if i >= |read| { assert longer[i] == page[i - |read|]; }
    }
    forall g | g in longer ensures exists j: nat :: j < k + 1 && g in world.unsettled(j) {
      if g in page { assert g in world.unsettled(k); }
    }
    forall g | 0 < g <= cursor && (forall j: nat :: j < k + 1 ==> g in world.unsettled(j)) ensures g in longer {
      assert g in world.unsettled(k);
    }
  }

  /** A page short of its limit leaves nothing above the cursor it was read from. */
  lemma ReadAll(world: World, k: nat, read: seq<GenId>, after: GenId, page: seq<GenId>, limit: nat)
    requires ReadUpTo(world, k, read, after) && IsPage(page, world.unsettled(k), after, limit) && |page| < limit
    requires k == 0 ==> after == 0
    ensures AllThroughout(world, k + 1, read + page)
  {
    forall g | g > 0 && (forall j: nat :: j < k + 1 ==> g in world.unsettled(j)) ensures g in read + page {
      assert g in world.unsettled(k);
    }
  }

  /** Every generation read was unsettled as some query found the table. */
  ghost predicate OnlyUnsettled(world: World, queries: nat, read: seq<GenId>) {
    forall g :: g in read ==> exists j: nat :: j < queries && g in world.unsettled(j)
  }

  /** Every generation unsettled at all queries is read. */
  ghost predicate AllThroughout(world: World, queries: nat, read: seq<GenId>) {
    forall g :: g > 0 && (forall j: nat :: j < queries ==> g in world.unsettled(j)) ==> g in read
  }

  function PagesOf(world: World, k: nat): seq<GenId> {
    if k == 0 then [] else PagesOf(world, k - 1) + world.pages(k - 1)
  }

  /** Query `k` is sent, and answered. */
  predicate Answered(world: World, k: nat) {
    !world.ended(k) && world.starts(k) && !world.fails(k)
  }

  /** Every query before `k` is answered by a full page. */
  predicate FullUpTo(world: World, limit: nat, k: nat) {
    forall j :: 0 <= j < k ==> Answered(world, j) && |world.pages(j)| == limit
  }

  /** One sweep's run as its leader. `read` lists the generations of its pages. */
  method Run(world: World, limit: nat, top: GenId) returns (read: seq<GenId>, queries: nat, end: End)
    requires Faithful(world, limit, top)
    // no generation is read twice, and ids only go up
    ensures Increasing(read)
    // only generations some page found unsettled are read
    ensures OnlyUnsettled(world, queries, read)
    // a run that ends on a short page read every generation that was unsettled throughout it
    ensures end.Whole? ==> AllThroughout(world, queries, read)
    // it reads the pages of its queries, all of them, up to the first short one
    ensures read == PagesOf(world, queries)
    ensures end.Whole? <==> queries > 0 && |world.pages(queries - 1)| < limit
    ensures end.Whole? ==> FullUpTo(world, limit, queries - 1) && Answered(world, queries - 1)
    ensures !end.Whole? ==> FullUpTo(world, limit, queries) && !Answered(world, queries)
    // it ends before that only for a call that ended, or has no time left, or a query that failed
    ensures end.Stopped? ==>
      world.ended(queries) || !world.starts(queries) || (world.fails(queries) && world.ended(queries + 1))
    ensures end.Broke? ==> world.fails(queries) && !world.ended(queries + 1)
    ensures queries == 0 ==> read == []
    ensures Enough(read, queries, limit)
  {
    hide Bounded, Enough, ReadUpTo, IsPage, CursorOf, PagesOf, FullUpTo, OnlyUnsettled, AllThroughout, Increasing, Faithful, AnswersPage;
    PageRead(world, limit, top, 0);
    read, queries := [], 0;
    var after: GenId := 0;
    NothingRead(world);
    while !world.ended(queries) && world.starts(queries)
      invariant ReadUpTo(world, queries, read, after)
      invariant read == PagesOf(world, queries) && FullUpTo(world, limit, queries)
      invariant queries > 0 ==> |world.pages(queries - 1)| == limit
      invariant Enough(read, queries, limit)
      invariant after == CursorOf(world, queries) && (queries == 0 ==> after == 0) && after <= top
      decreases top - after
    {
      ReadFacts(world, queries, read, after);
      if world.fails(queries) {
        return read, queries, if world.ended(queries + 1) then Stopped else Broke;
      }
      var page := world.pages(queries);
      PageRead(world, limit, top, queries);
      if |page| < limit {
        ReadAll(world, queries, read, after, page, limit);
        ShortPage(world, queries, read, after, page, limit);
        PagesGoOn(world, limit, queries);
        PagesEnough(world, limit, queries);
        return read + page, queries + 1, Whole;
      }
      FullPage(page, world.unsettled(queries), after, limit, top);
      ReadOn(world, queries, read, after, page, limit);
      Follows(world, queries);
      PagesGoOn(world, limit, queries);
      PagesEnough(world, limit, queries);
      read := read + page;
      after := page[|page| - 1];
      queries := queries + 1;
    }
    ReadFacts(world, queries, read, after);
    end := Stopped;
  }

  /** One generation in flight and nothing in the way: the sweep reads it, and ends with its page. */
  lemma SmallBacklogIsRead(world: World, limit: nat, top: GenId, g: GenId, read: seq<GenId>, queries: nat, end: End)
    requires Faithful(world, limit, top) && limit > 1 && world.unsettled(0) == {g} && Answered(world, 0)
    requires read == PagesOf(world, queries) && (end.Whole? <==> queries > 0 && |world.pages(queries - 1)| < limit)
    requires end.Whole? ==> FullUpTo(world, limit, queries - 1) && Answered(world, queries - 1)
    requires !end.Whole? ==> FullUpTo(world, limit, queries) && !Answered(world, queries)
    ensures read == [g] && queries == 1 && end.Whole?
  {
    assert AnswersPage(world, 0, limit);
    var page := world.pages(0);
    assert forall i :: 0 <= i < |page| ==> page[i] == g;
    IncreasingSize(page, {g});
    assert 0 < g && g in page;
    assert PagesOf(world, 1) == PagesOf(world, 0) + page;
  }

  lemma PagesGoOn(world: World, limit: nat, k: nat)
    ensures PagesOf(world, k + 1) == PagesOf(world, k) + world.pages(k)
    ensures FullUpTo(world, limit, k) && Answered(world, k) && |world.pages(k)| == limit ==> FullUpTo(world, limit, k + 1)
    ensures FullUpTo(world, limit, k + 1) ==> |world.pages(k)| == limit
  {
  }

  lemma NothingRead(world: World)
    ensures ReadUpTo(world, 0, [], 0) && CursorOf(world, 0) == 0 && PagesOf(world, 0) == []
    ensures forall limit :: Enough([], 0, limit)
    ensures forall limit :: FullUpTo(world, limit, 0)
  {
  }

  lemma ReadFacts(world: World, k: nat, read: seq<GenId>, after: GenId)
    requires ReadUpTo(world, k, read, after)
    ensures Increasing(read) && OnlyUnsettled(world, k, read)
  {
  }

  lemma PageRead(world: World, limit: nat, top: GenId, k: nat)
    requires Faithful(world, limit, top)
    ensures limit > 0 && IsPage(world.pages(k), world.unsettled(k), CursorOf(world, k), limit)
    ensures Bounded(world.unsettled(k), top)
  {
    assert AnswersPage(world, k, limit);
  }

  predicate Bounded(ids: set<GenId>, top: GenId) {
    forall g :: g in ids ==> g <= top
  }

  lemma FullPage(page: seq<GenId>, ids: set<GenId>, after: GenId, limit: nat, top: GenId)
    requires IsPage(page, ids, after, limit) && |page| >= limit > 0 && Bounded(ids, top)
    ensures |page| == limit && after < page[|page| - 1] <= top
  {
  }

  lemma Follows(world: World, k: nat)
    requires world.pages(k) != []
    ensures CursorOf(world, k + 1) == world.pages(k)[|world.pages(k)| - 1]
  {
  }

  /** Every page but the last is full. */
  predicate Enough(read: seq<GenId>, queries: nat, limit: nat) {
    queries > 0 ==> |read| >= (queries - 1) * limit
  }

  lemma {:induction false} PagesEnough(world: World, limit: nat, k: nat)
    requires FullUpTo(world, limit, k)
    ensures |PagesOf(world, k)| == k * limit && Enough(PagesOf(world, k + 1), k + 1, limit)
  {
    if k > 0 { PagesEnough(world, limit, k - 1); }
  }

  lemma ShortPage(world: World, k: nat, read: seq<GenId>, after: GenId, page: seq<GenId>, limit: nat)
    requires ReadUpTo(world, k, read, after) && IsPage(page, world.unsettled(k), after, limit)
    ensures Increasing(read + page) && OnlyUnsettled(world, k + 1, read + page)
  {
    var longer := read + page;
    forall i, j | 0 <= i < j < |longer| ensures longer[i] < longer[j] {
      if i < |read| <= j { assert longer[j] == page[j - |read|]; }
    }
    forall g | g in longer ensures exists j: nat :: j < k + 1 && g in world.unsettled(j) {
      if g in page { assert g in world.unsettled(k); }
    }
  }

  lemma {:induction false} IncreasingSize(ids: seq<GenId>, all: set<GenId>)
    requires Increasing(ids) && forall i :: 0 <= i < |ids| ==> ids[i] in all
    ensures |ids| <= |all|
  {
    if ids != [] {
      forall i | 0 <= i < |ids[1..]| ensures ids[1..][i] in all - {ids[0]} { assert ids[1..][i] == ids[i + 1]; }
      IncreasingSize(ids[1..], all - {ids[0]});
    }
  }

  /** With none inserted while it runs, a sweep ends: all its pages but the last are full of different generations. */
  lemma QueriesBounded(world: World, limit: nat, read: seq<GenId>, queries: nat)
    requires limit > 0 && queries > 0 && Enough(read, queries, limit) && Increasing(read)
    requires OnlyUnsettled(world, queries, read)
    requires forall j: nat :: world.unsettled(j) <= world.unsettled(0)
    ensures (queries - 1) * limit <= |world.unsettled(0)|
  {
    forall i | 0 <= i < |read| ensures read[i] in world.unsettled(0) {
      assert read[i] in read;
      var j: nat :| j < queries && read[i] in world.unsettled(j);
      assert world.unsettled(j) <= world.unsettled(0);
    }
    IncreasingSize(read, world.unsettled(0));
  }
}
