/** The data access objects: each statement updates the tables in place. */
module Database {
  import opened Types
  import opened Counting
  import opened Paging
  import S = Store

  class Database {
    var rows: map<GenId, Generation>
    var attempts: map<GenId, Response>
    var usage: map<GenId, UsageRecord>
    const retention: Time

    constructor (retention: Time)
      ensures Contents() == S.Store(map[], map[], map[]) && this.retention == retention
    {
      rows, attempts, usage := map[], map[], map[];
      this.retention := retention;
    }

    ghost function Contents(): S.Store
      reads this
    {
      S.Store(rows, attempts, usage)
    }

    /** Inserts a generation, or finds the one that holds its key. */
    method Submit(id: GenId, key: Identity, at: Time) returns (row: Generation, created: bool)
      requires id !in rows && forall g :: g in rows ==> rows[g].id == g
      modifies this`rows
      ensures created <==> !S.KeyTaken(old(rows), key)
      ensures created ==> row == S.NewRow(id, key, at) && rows == old(rows)[id := row]
      ensures !created ==>
        rows == old(rows) && row.id in rows && rows[row.id] == row && row.key == key && S.HoldsKey(row)
    {
      if g :| g in rows && rows[g].key == key && S.HoldsKey(rows[g]) {
        row := rows[g];
      } else {
        row := S.NewRow(id, key, at);
        rows := rows[id := row];
      }
      created := row.id == id;
    }

    method RecordProviderCall(id: GenId, call: CallId) returns (outcome: S.Outcome)
      modifies this
      ensures (Contents(), outcome) == S.Record(old(Contents()), id, call)
    {
      if id !in rows || rows[id].status != Pending || rows[id].startRequestedAt.None? {
        return S.Changed;
      }
      var row := rows[id];
      row := row.(callId := Some(call));
      row := row.(status := Running);
      rows := rows[id := row];
      outcome := S.Landed(row);
    }

    method RequestCancel(id: GenId, owner: seq<byte>, at: Time) returns (row: Option<Generation>)
      modifies this
      ensures (Contents(), row) == S.RequestCancel(old(Contents()), id, owner, at, retention)
    {
      if id !in rows || rows[id].key.owner != owner || !rows[id].Unsettled() {
        return None;
      }
      var r := rows[id];
      if r.cancelRequestedAt.None? {
        r := r.(cancelRequestedAt := Some(at));
      }
      if r.startRequestedAt.None? {
        r := r.(status := Cancelled, error := Some(OwnerCancelled));
        r := r.(settledAt := Some(at), expiresAt := Some(at + retention));
      }
      rows := rows[id := r];
      row := Some(r);
    }

    method Settle(request: S.SettleRequest, at: Time) returns (outcome: S.Outcome)
      modifies this`rows
      ensures outcome.Changed? <==> !(request.id in old(rows) && S.Fenced(old(rows)[request.id], request))
      ensures outcome.Refused? ==> !S.Admissible(request)
      ensures outcome.Landed? ==>
        && S.Admissible(request)
        && outcome.row == S.SettledRow(old(rows)[request.id], request, at, retention)
        && rows == old(rows)[request.id := outcome.row]
      ensures !outcome.Landed? ==> rows == old(rows)
    {
      if request.id !in rows || !S.Fenced(rows[request.id], request) {
        return S.Changed;
      }
      if !S.Admissible(request) {
        return S.Refused;
      }
      var row := rows[request.id].(
        status := request.status, error := request.error, failure := request.failure,
        settledAt := Some(at), expiresAt := Some(at + retention),
        outcomeUnknownAt := if request.outcomeUnknown then Some(at) else None);
      rows := rows[request.id := row];
      outcome := S.Landed(row);
    }

    method InsertAttempt(id: GenId, response: Response) returns (refused: bool)
      modifies this`attempts
      ensures refused <==> !response.storable || id in old(attempts)
      ensures attempts == if refused then old(attempts) else old(attempts)[id := response]
    {
      refused := !response.storable || id in attempts;
      if !refused {
        attempts := attempts[id := response];
      }
    }

    /** Inserted once: a record already there wins, which is no failure. */
    method InsertUsage(id: GenId, key: Identity, u: Usage, at: Time) returns (refused: bool)
      modifies this`usage
      ensures refused <==> !S.ValidUsage(u)
      ensures usage == if refused then old(usage) else S.WithUsage(old(usage), id, S.UsageOf(key, u, at))
    {
      refused := !S.ValidUsage(u);
      if !refused && id !in usage {
        usage := usage[id := UsageRecord(key.owner, key.purpose, u, at)];
      }
    }

    /** The settle, then the answer, then the Usage Record, in one transaction rolled back on a refusal. */
    method Commit(request: S.SettleRequest, response: Option<Response>, u: Option<Usage>, key: Identity, at: Time)
      returns (outcome: S.Outcome)
      modifies this
      ensures (Contents(), outcome) == S.Commit(old(Contents()), request, response, u, key, at, retention)
    {
      var rows0, attempts0 := rows, attempts;
      outcome := Settle(request, at);
      if !outcome.Landed? {
        return;
      }
      var refused := false;
      if response.Some? {
        refused := InsertAttempt(request.id, response.value);
      }
      if !refused && u.Some? {
        refused := InsertUsage(request.id, key, u.value, at);
      }
      if refused {
        rows, attempts := rows0, attempts0;
        outcome := S.Refused;
      }
    }

    /** How many generations of one owner and purpose are in flight, with the clock at `at`. */
    method CountLive(owner: seq<byte>, purpose: seq<byte>, at: Time) returns (count: nat)
      ensures count == |Live(rows, owner, purpose, at)|
    {
      count := 0;
      var todo := rows.Keys;
      ghost var counted: set<GenId> := {};
      while todo != {}
        invariant todo <= rows.Keys
        invariant counted == Live(rows, owner, purpose, at) - todo && count == |counted|
        decreases |todo|
      {
        var g :| g in todo;
        todo := todo - {g};
        if CountsLive(rows[g], owner, purpose, at) {
          count := count + 1;
          counted := counted + {g};
        }
      }
      assert counted == Live(rows, owner, purpose, at);
    }

    /** What the records of one window add up to, for one owner and purpose. */
    method SumWindow(owner: seq<byte>, purpose: seq<byte>, at: Time, window: Time) returns (totals: Totals)
      ensures Sums(usage, Held(usage, owner, purpose, at - window), totals)
    {
      hide Sums;
      totals := Totals(0, 0, None);
      SumsNothing(usage);
      var held := Held(usage, owner, purpose, at - window);
      var todo := held;
      assert held - todo == {};
      while todo != {}
        invariant todo <= held
        invariant Sums(usage, held - todo, totals)
        decreases |todo|
      {
        var g :| g in todo;
        var r := usage[g];
        SumsOneMore(usage, held - todo, totals, g);
        totals := Totals(
          totals.input + r.usage.input, totals.output + r.usage.output,
          if totals.oldest.None? || r.createdAt < totals.oldest.value then Some(r.createdAt) else totals.oldest);
        assert held - (todo - {g}) == held - todo + {g};
        todo := todo - {g};
      }
      assert held - todo == held;
    }

    /** The totals of several windows, as they were listed. */
    method SumUsage(owner: seq<byte>, purpose: seq<byte>, at: Time, windows: seq<Time>) returns (totals: seq<Totals>)
      ensures |totals| == |windows|
      ensures forall i :: 0 <= i < |windows| ==> Sums(usage, Held(usage, owner, purpose, at - windows[i]), totals[i])
    {
      totals := [];
      while |totals| < |windows|
        invariant |totals| <= |windows|
        invariant forall i :: 0 <= i < |totals| ==> Sums(usage, Held(usage, owner, purpose, at - windows[i]), totals[i])
      {
        var next := SumWindow(owner, purpose, at, windows[|totals|]);
        totals := totals + [next];
      }
    }

    /** The next unsettled generations above a cursor, lowest id first, as many as the limit lets through. */
    method SweepPage(after: GenId, limit: nat) returns (page: seq<GenId>)
      ensures IsPage(page, Unsettled(rows), after, limit)
    {
      page := [];
      ghost var all := Above(Unsettled(rows), after);
      var left := Above(Unsettled(rows), after);
      while |page| < limit && left != {}
        invariant |page| <= limit && PagedSoFar(page, all, left)
        decreases |left|
      {
        var least := Least(left);
        AppendLeast(page, all, left, least);
        page := page + [least];
        left := left - {least};
      }
      PagedIsPage(page, Unsettled(rows), after, limit, left);
    }
  }
}
