/** The metering code of both sides as it runs: queries and loops over rows and members. */
module MeterWorker {
  import opened Common
  import opened MeterModel

  /** The child's usage tables. */
  class MeterStore {
    var rows: map<Key, Pair>
    var acks: map<Key, Pair>

    constructor (rows: map<Key, Pair>, acks: map<Key, Pair>)
      ensures this.rows == rows && this.acks == acks
    {
      this.rows, this.acks := rows, acks;
    }

    /** pendingNodeUsage; the order of the rows does not matter. */
    method PendingNodeUsage() returns (out: seq<Row>)
      ensures Listing(out, rows, acks)
    {
      out := [];
      var todo := rows.Keys;
      while todo != {}
        invariant todo <= rows.Keys && KeysOf(out) !! todo && Distinct(out)
        invariant forall i :: 0 <= i < |out| ==> Pending(rows, acks, out[i].key) && out[i].bytes == rows[out[i].key]
        invariant forall k :: k in rows && k !in todo && Pending(rows, acks, k) ==> k in KeysOf(out)
      {
        var k :| k in todo;
        todo := todo - {k};
        if Pending(rows, acks, k) {
          assert k !in KeysOf(out);
          ghost var before := out;
          out := out + [Row(k, rows[k])];
          assert KeysOf(out) == KeysOf(before) + {k} by {
            assert forall i :: 0 <= i < |before| ==> before[i] == out[i];
            assert out[|before|].key == k;
          }
        }
      }
    }

    /** ackBusinessUsage: all rows in one transaction, or none. */
    method AckBusinessUsage(reported: seq<Row>) returns (ok: bool)
      modifies this`acks
      ensures match Acknowledge(old(acks), rows, reported)
              case None => !ok && acks == old(acks)
              case Some(m) => ok && acks == m
    {
      var m := acks;
      var n := 0;
      while n < |reported|
        invariant 0 <= n <= |reported|
        invariant Acknowledge(acks, rows, reported[..n]) == Some(m)
        invariant acks == old(acks)
      {
        var row := reported[n];
        assert reported[..n + 1][..n] == reported[..n];
        if row.key !in rows || !Within(row.bytes, rows[row.key]) {
          RefusedStays(acks, rows, reported, n + 1);
          return false;
        }
        if row.key !in m || Within(m[row.key], row.bytes) {
          m := m[row.key := row.bytes];
        }
        n := n + 1;
      }
      assert reported[..n] == reported;
      acks := m;
      return true;
    }
  }

  lemma {:induction false} RefusedStays(acks: map<Key, Pair>, table: map<Key, Pair>, rows: seq<Row>, n: nat)
    requires n <= |rows| && Acknowledge(acks, table, rows[..n]) == None
    ensures Acknowledge(acks, table, rows) == None
    decreases |rows| - n
  {
    if n == |rows| {
      assert rows[..n] == rows;
    } else {
      assert rows[..n + 1][..n] == rows[..n];
      RefusedStays(acks, table, rows, n + 1);
    }
  }

  lemma {:induction false} RecomputeStays(v: Control, sums: map<UserId, Usage>, rows: seq<Row>, n: nat)
    requires n <= |rows| && Recompute(v, sums, rows[..n]) == None
    ensures Recompute(v, sums, rows) == None
    decreases |rows| - n
  {
    if n == |rows| {
      assert rows[..n] == rows;
    } else {
      assert rows[..n + 1][..n] == rows[..n];
      RecomputeStays(v, sums, rows, n + 1);
    }
  }

  /** The first loop of verifyBusinessMeter: where every member's recomputation starts. */
  method OpenSums(v: Control, h: Heartbeat) returns (ok: bool, sums: map<UserId, Usage>)
    ensures ok <==> forall u :: u in h.usage ==> StartOf(v, h, u).Some?
    ensures ok ==> sums == Starts(v, h)
  {
    sums := map[];
    var todo := h.usage.Keys;
    while todo != {}
      invariant todo <= h.usage.Keys && sums.Keys == h.usage.Keys - todo
      invariant forall u :: u in sums ==> StartOf(v, h, u) == Some(sums[u])
    {
      var u :| u in todo;
      var s := StartOf(v, h, u);
      if s.None? {
        return false, sums;
      }
      sums := sums[u := s.value];
      todo := todo - {u};
    }
    ok := true;
  }

  /** One turn of the row loop. */
  function NextSums(v: Control, sums: map<UserId, Usage>, seen: set<Key>, row: Row): Option<map<UserId, Usage>>
  {
    if row.key in seen || !RowFine(v, sums, row) then None
    else match ChargeRow(sums[row.key.user], RowOr(v.rows, row.key), row)
      case None => None
      case Some(x) => Some(sums[row.key.user := x])
  }

  lemma RecomputeNext(v: Control, start: map<UserId, Usage>, rows: seq<Row>, n: nat, sums: map<UserId, Usage>)
    requires n < |rows| && Recompute(v, start, rows[..n]) == Some(sums)
    ensures Recompute(v, start, rows[..n + 1]) == NextSums(v, sums, KeysOf(rows[..n]), rows[n])
  {
    assert rows[..n + 1][..n] == rows[..n];
  }

  /** The second loop: every row's growth charged to its member. */
  method ChargeRows(v: Control, start: map<UserId, Usage>, rows: seq<Row>) returns (ok: bool, sums: map<UserId, Usage>)
    ensures Recompute(v, start, rows) == if ok then Some(sums) else None
  {
    sums := start;
    var seen: set<Key> := {};
    var n := 0;
    while n < |rows|
      invariant 0 <= n <= |rows|
      invariant Recompute(v, start, rows[..n]) == Some(sums)
      invariant seen == KeysOf(rows[..n])
    {
      RecomputeNext(v, start, rows, n, sums);
      var next := NextSums(v, sums, seen, rows[n]);
      if next.None? {
        RecomputeStays(v, start, rows, n + 1);
        return false, sums;
      }
      sums := next.value;
      seen := seen + {rows[n].key};
      n := n + 1;
    }
    assert rows[..n] == rows;
    ok := true;
  }

  /** The third loop: the reported totals against the recomputed ones. */
  method Agree(usage: map<UserId, Usage>, sums: map<UserId, Usage>) returns (ok: bool)
    requires usage.Keys == sums.Keys
    ensures ok <==> sums == usage
  {
    var todo := usage.Keys;
    while todo != {}
      invariant todo <= usage.Keys
      invariant forall u :: u in usage && u !in todo ==> usage[u] == sums[u]
    {
      var u :| u in todo;
      if usage[u] != sums[u] {
        return false;
      }
      todo := todo - {u};
    }
    assert sums == usage;
    ok := true;
  }

  /** verifyBusinessMeter. */
  method VerifyBusinessMeter(v: Control, h: Heartbeat) returns (ok: bool)
    ensures ok <==> Verified(v, h)
  {
    if |h.rows| > MAX_ROWS {
      return false;
    }
    var started, start := OpenSums(v, h);
    if !started {
      return false;
    }
    var charged, sums := ChargeRows(v, start, h.rows);
    if !charged {
      return false;
    }
    RecomputeKeys(v, start, h.rows);
    ok := Agree(h.usage, sums);
  }

  lemma {:induction false} RecomputeKeys(v: Control, sums: map<UserId, Usage>, rows: seq<Row>)
    ensures Recompute(v, sums, rows).Some? ==> Recompute(v, sums, rows).value.Keys == sums.Keys
    decreases |rows|
  {
    if rows != [] {
      RecomputeKeys(v, sums, rows[..|rows| - 1]);
    }
  }
}
