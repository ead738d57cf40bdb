/** What admission and a usage summary count: an owner's live generations, and its usage over rolling windows. */
module Counting {
  import opened Types

  /** In flight, or failed as unknown no longer ago than the hold. */
  predicate CountsLive(r: Generation, owner: seq<byte>, purpose: seq<byte>, at: Time) {
    && r.key.owner == owner && r.key.purpose == purpose
    && (r.Unsettled() || (r.outcomeUnknownAt.Some? && r.outcomeUnknownAt.value > at - UNKNOWN_OUTCOME_HOLD))
  }

  function Live(rows: map<GenId, Generation>, owner: seq<byte>, purpose: seq<byte>, at: Time): set<GenId> {
    set g | g in rows && CountsLive(rows[g], owner, purpose, at)
  }

  /** The records a window holds: those written after it starts. */
  function Held(usage: map<GenId, UsageRecord>, owner: seq<byte>, purpose: seq<byte>, since: Time): set<GenId> {
    set g | g in usage && usage[g].owner == owner && usage[g].purpose == purpose && usage[g].createdAt > since
  }

  /** Which rows count, by their columns. */
  lemma LiveExactly(rows: map<GenId, Generation>, owner: seq<byte>, purpose: seq<byte>, at: Time, g: GenId)
    ensures g in Live(rows, owner, purpose, at) <==>
      && g in rows && rows[g].key.owner == owner && rows[g].key.purpose == purpose
      && (|| rows[g].status == Pending || rows[g].status == Running
          || (rows[g].outcomeUnknownAt.Some? && rows[g].outcomeUnknownAt.value > at - 15 * MINUTE))
  {
  }

  /** Which records a window holds, by their columns. */
  lemma HeldExactly(usage: map<GenId, UsageRecord>, owner: seq<byte>, purpose: seq<byte>, since: Time, g: GenId)
    ensures g in Held(usage, owner, purpose, since) <==>
      g in usage && usage[g].owner == owner && usage[g].purpose == purpose && usage[g].createdAt > since
  {
  }

  datatype Totals = Totals(input: int, output: int, oldest: Option<Time>)

  ghost function InputOf(usage: map<GenId, UsageRecord>, ids: set<GenId>): int
    requires ids <= usage.Keys
  {
    if ids == {} then 0 else
      var g :| g in ids;
      usage[g].usage.input + InputOf(usage, ids - {g})
  }

  ghost function OutputOf(usage: map<GenId, UsageRecord>, ids: set<GenId>): int
    requires ids <= usage.Keys
  {
    if ids == {} then 0 else
      var g :| g in ids;
      usage[g].usage.output + OutputOf(usage, ids - {g})
  }

  /** A sum does not depend on the order of its terms. */
  lemma {:induction false} InputPick(usage: map<GenId, UsageRecord>, ids: set<GenId>, g: GenId)
    requires ids <= usage.Keys && g in ids
    ensures InputOf(usage, ids) == usage[g].usage.input + InputOf(usage, ids - {g})
    decreases ids
  {
    var h :| h in ids && InputOf(usage, ids) == usage[h].usage.input + InputOf(usage, ids - {h});
    if g != h {
      InputPick(usage, ids - {h}, g);
      InputPick(usage, ids - {g}, h);
      assert ids - {h} - {g} == ids - {g} - {h};
    }
  }

  lemma {:induction false} OutputPick(usage: map<GenId, UsageRecord>, ids: set<GenId>, g: GenId)
    requires ids <= usage.Keys && g in ids
    ensures OutputOf(usage, ids) == usage[g].usage.output + OutputOf(usage, ids - {g})
    decreases ids
  {
    var h :| h in ids && OutputOf(usage, ids) == usage[h].usage.output + OutputOf(usage, ids - {h});
    if g != h {
      OutputPick(usage, ids - {h}, g);
      OutputPick(usage, ids - {g}, h);
      assert ids - {h} - {g} == ids - {g} - {h};
    }
  }

  ghost predicate Oldest(usage: map<GenId, UsageRecord>, ids: set<GenId>, oldest: Option<Time>)
    requires ids <= usage.Keys
  {
    && (oldest.None? <==> ids == {})
    && (oldest.Some? ==>
          && (exists g :: g in ids && usage[g].createdAt == oldest.value)
          && forall g :: g in ids ==> oldest.value <= usage[g].createdAt)
  }

  /** The totals are those of the records, the oldest of which is the first to leave the window. */
  ghost predicate Sums(usage: map<GenId, UsageRecord>, ids: set<GenId>, totals: Totals)
    requires ids <= usage.Keys
  {
    && totals.input == InputOf(usage, ids)
    && totals.output == OutputOf(usage, ids)
    && Oldest(usage, ids, totals.oldest)
  }

  lemma SumsNothing(usage: map<GenId, UsageRecord>)
    ensures Sums(usage, {}, Totals(0, 0, None))
  {
  }

  lemma SumsOneMore(usage: map<GenId, UsageRecord>, ids: set<GenId>, totals: Totals, g: GenId)
    requires ids <= usage.Keys && g in usage && g !in ids && Sums(usage, ids, totals)
    ensures var r := usage[g];
      Sums(usage, ids + {g}, Totals(
        totals.input + r.usage.input, totals.output + r.usage.output,
        if totals.oldest.None? || r.createdAt < totals.oldest.value then Some(r.createdAt) else totals.oldest))
  {
    InputPick(usage, ids + {g}, g);
    OutputPick(usage, ids + {g}, g);
    assert ids + {g} - {g} == ids;
  }

  ghost predicate NonNegative(usage: map<GenId, UsageRecord>) {
    forall g :: g in usage ==> usage[g].usage.input >= 0 && usage[g].usage.output >= 0
  }

  /** Usage only adds up: more records, kept as they were, never sum to less. */
  lemma {:induction false} MoreIsMore(before: map<GenId, UsageRecord>, ids: set<GenId>,
                                      after: map<GenId, UsageRecord>, more: set<GenId>)
    requires ids <= before.Keys && more <= after.Keys && ids <= more && NonNegative(after)
    requires forall g :: g in ids ==> before[g] == after[g]
    ensures InputOf(before, ids) <= InputOf(after, more) && OutputOf(before, ids) <= OutputOf(after, more)
    decreases |more|
  {
    if more != {} {
      var g :| g in more;
      InputPick(after, more, g);
      OutputPick(after, more, g);
      if g in ids {
        InputPick(before, ids, g);
        OutputPick(before, ids, g);
        MoreIsMore(before, ids - {g}, after, more - {g});
      } else {
        MoreIsMore(before, ids, after, more - {g});
      }
    }
  }
}
