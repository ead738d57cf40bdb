/** Pages of a changing set of generations, read in id order. */
module Paging {
  import opened Types

  function Unsettled(rows: map<GenId, Generation>): set<GenId> {
    set g | g in rows && rows[g].Unsettled()
  }

  /** What a sweep looks for, by the column it reads. */
  lemma UnsettledExactly(rows: map<GenId, Generation>, g: GenId)
    ensures g in Unsettled(rows) <==> g in rows && (rows[g].status == Pending || rows[g].status == Running)
  {
  }

  function Above(ids: set<GenId>, after: GenId): set<GenId> {
    set g | g in ids && g > after
  }

  predicate Increasing(ids: seq<GenId>) {
    forall i, j :: 0 <= i < j < |ids| ==> ids[i] < ids[j]
  }

  /** The first ids above the cursor, in order: a page short of its limit holds them all. */
  ghost predicate IsPage(page: seq<GenId>, ids: set<GenId>, after: GenId, limit: nat) {
    && |page| <= limit && Increasing(page)
    && (forall i :: 0 <= i < |page| ==> page[i] in ids && page[i] > after)
    && (forall g :: g in ids && g > after && g !in page ==> |page| == limit && forall i :: 0 <= i < |page| ==> page[i] < g)
  }

  predicate IsLeast(least: GenId, ids: set<GenId>) {
    least in ids && forall g :: g in ids ==> least <= g
  }

  function Least(ids: set<GenId>): (least: GenId)
    requires ids != {}
    ensures IsLeast(least, ids)
  {
    LeastExists(ids);
    var least :| least in ids && IsLeast(least, ids);
    least
  }

  lemma {:induction false} LeastExists(ids: set<GenId>)
    requires ids != {}
    ensures exists least :: least in ids && IsLeast(least, ids)
  {
    var g :| g in ids;
    if ids == {g} {
      assert IsLeast(g, ids);
    } else {
      var others := ids - {g};
      assert others != {};
      LeastExists(others);
      var least :| least in others && IsLeast(least, others);
      var m := if g < least then g else least;
      forall h | h in ids ensures m <= h { if h != g { assert h in others; } }
      assert IsLeast(m, ids);
    }
  }

  /** The page holds all that is not left, and what is left comes after it. */
  ghost predicate PagedSoFar(page: seq<GenId>, all: set<GenId>, left: set<GenId>) {
    && Increasing(page) && left <= all
    && (forall g :: g in all <==> g in page || g in left)
    && (forall i, g :: 0 <= i < |page| && g in left ==> page[i] < g)
  }

  /** What was paged, short of its limit only when nothing is left, is a page. */
  lemma PagedIsPage(page: seq<GenId>, ids: set<GenId>, after: GenId, limit: nat, left: set<GenId>)
    requires PagedSoFar(page, Above(ids, after), left) && |page| <= limit && (|page| == limit || left == {})
    ensures IsPage(page, ids, after, limit)
  {
    forall i | 0 <= i < |page| ensures page[i] in ids && page[i] > after { assert page[i] in Above(ids, after); }
    forall g | g in ids && g > after && g !in page
      ensures |page| == limit && forall i :: 0 <= i < |page| ==> page[i] < g
    {
      assert g in Above(ids, after);
    }
  }

  lemma AppendLeast(page: seq<GenId>, all: set<GenId>, left: set<GenId>, least: GenId)
    requires PagedSoFar(page, all, left) && least in left && forall g :: g in left ==> least <= g
    ensures PagedSoFar(page + [least], all, left - {least})
  {
  }
}
