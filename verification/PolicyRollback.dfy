/** A child site's rollback of a failed policy: the old authorizations come back, but no traffic
    counter is rewound and nobody new stays authorized. */
module PolicyRollback {
  import opened Common

  type UserId = nat
  datatype Counters = Counters(up: nat, down: nat, vless: nat, hy2: nat)
  datatype Meter = Meter(period: string, up: nat, down: nat, upRest: nat, downRest: nat)
  datatype Username = Member(name: string) | Retired(id: UserId)

  /** `policy` stands for everything else a policy says about a member. */
  datatype Record = Record(id: UserId, username: Username, enabled: bool, policy: nat, counters: Counters, meter: Option<Meter>)

  ghost predicate Distinct(records: seq<Record>)
  {
    forall i, j :: 0 <= i < j < |records| ==> records[i].id != records[j].id
  }

  function Ids(records: seq<Record>): set<UserId>
  {
    set i | 0 <= i < |records| :: records[i].id
  }

  /** An old record with the accounting of the latest one. */
  function Merge(prior: Record, latest: Record): Record
  {
    var r := prior.(counters := latest.counters);
    if latest.meter.None? then r
    else r.(enabled := r.enabled && (r.meter.None? || r.meter.value.period == latest.meter.value.period), meter := latest.meter)
  }

  function Retire(u: Record): Record { u.(enabled := false, username := Retired(u.id)) }

  /** The outcome for the old record `r`. */
  ghost predicate MergedFrom(out: Record, r: Record, current: seq<Record>)
  {
    && (r.id !in Ids(current) ==> out == r)
    && (forall u :: u in current && u.id == r.id ==> out == Merge(r, u))
  }

  ghost predicate RetiredFrom(out: Record, previous: seq<Record>, current: seq<Record>)
  {
    exists u :: u in current && u.id !in Ids(previous) && out == Retire(u)
  }

  /** What preserveBusinessAccounting returns. */
  ghost predicate Preserved(previous: seq<Record>, current: seq<Record>, out: seq<Record>)
  {
    && |previous| <= |out| && Distinct(out)
    && (forall i :: 0 <= i < |previous| ==> MergedFrom(out[i], previous[i], current))
    && (forall i :: |previous| <= i < |out| ==> RetiredFrom(out[i], previous, current))
    && (forall u :: u in current ==> u.id in Ids(out))
  }

  /** Every counter that was taken after the failed policy survives the rollback. */
  lemma NoCounterIsRewound(previous: seq<Record>, current: seq<Record>, out: seq<Record>, u: Record)
    requires Preserved(previous, current, out) && Distinct(current) && u in current
    ensures exists r :: r in out && r.id == u.id && r.counters == u.counters && (u.meter.Some? ==> r.meter == u.meter)
  {
    var i :| 0 <= i < |out| && out[i].id == u.id;
    if i < |previous| {
      assert MergedFrom(out[i], previous[i], current);
      assert out[i] == Merge(previous[i], u);
    } else {
      assert RetiredFrom(out[i], previous, current);
      var w :| w in current && w.id !in Ids(previous) && out[i] == Retire(w);
    }
    assert out[i] in out;
  }

  /** Whoever is authorized afterwards was authorized before the failed policy, under the same policy,
      and in a period that did not change under it. */
  lemma NobodyGainsAuthorization(previous: seq<Record>, current: seq<Record>, out: seq<Record>, i: nat)
    requires Preserved(previous, current, out) && i < |out| && out[i].enabled
    ensures i < |previous| && previous[i].id == out[i].id
    ensures previous[i].enabled && previous[i].policy == out[i].policy && previous[i].username == out[i].username
    ensures previous[i].meter.Some? && out[i].meter.Some? ==> previous[i].meter.value.period == out[i].meter.value.period
  {
    if i < |previous| {
      assert MergedFrom(out[i], previous[i], current);
      if previous[i].id in Ids(current) {
        var k :| 0 <= k < |current| && current[k].id == previous[i].id;
        assert current[k] in current;
      }
    }
  }

  /** And nobody loses it but for a period that changed: an old record is enabled afterwards if and only if it
      was before and, where both it and the latest record have a meter, their periods agree. Its policy and
      name are the old ones, its accounting the latest. */
  lemma EnabledExactlyWhen(previous: seq<Record>, current: seq<Record>, out: seq<Record>, i: nat)
    requires Preserved(previous, current, out) && Distinct(current) && i < |previous|
    ensures out[i].id == previous[i].id && out[i].policy == previous[i].policy && out[i].username == previous[i].username
    ensures out[i].enabled <==>
              previous[i].enabled
              && forall u :: u in current && u.id == previous[i].id && u.meter.Some? && previous[i].meter.Some? ==>
                   u.meter.value.period == previous[i].meter.value.period
    ensures forall u :: u in current && u.id == previous[i].id ==>
              out[i].counters == u.counters && out[i].meter == if u.meter.Some? then u.meter else previous[i].meter
    ensures previous[i].id !in Ids(current) ==> out[i] == previous[i]
  {
    assert MergedFrom(out[i], previous[i], current);
    if previous[i].id in Ids(current) {
      var k :| 0 <= k < |current| && current[k].id == previous[i].id;
      assert current[k] in current;
      forall u | u in current && u.id == previous[i].id ensures u == current[k] {
        var j :| 0 <= j < |current| && current[j] == u;
      }
    }
  }

  /** Everyone whom only the failed policy knew is kept once, disabled and renamed, with all accounting. */
  lemma NewcomersAreRetired(previous: seq<Record>, current: seq<Record>, out: seq<Record>, u: Record)
    requires Preserved(previous, current, out) && Distinct(current) && u in current && u.id !in Ids(previous)
    ensures u.(enabled := false, username := Retired(u.id)) in out[|previous|..]
  {
    var i :| 0 <= i < |out| && out[i].id == u.id;
    if i < |previous| {
      EnabledExactlyWhen(previous, current, out, i);
      assert false;
    }
    assert RetiredFrom(out[i], previous, current);
    var w :| w in current && w.id !in Ids(previous) && out[i] == Retire(w);
    var a, b :| 0 <= a < |current| && 0 <= b < |current| && current[a] == u && current[b] == w;
    assert a == b;
    assert out[|previous|..][i - |previous|] == out[i];
  }

  // ------------------------------------------------------------------ the loops

  /** The first loop: the current records by id. */
  method Index(current: seq<Record>) returns (latest: map<UserId, Record>)
    requires Distinct(current)
    ensures forall id :: id in latest <==> id in Ids(current)
    ensures forall i :: 0 <= i < |current| ==> current[i].id in latest && latest[current[i].id] == current[i]
  {
    latest := map[];
    for n := 0 to |current|
      invariant forall id :: id in latest <==> exists i :: 0 <= i < n && current[i].id == id
      invariant forall i :: 0 <= i < n ==> current[i].id in latest && latest[current[i].id] == current[i]
    {
      latest := latest[current[n].id := current[n]];
    }
  }

  /** The second loop, in place over the old records; what it leaves in `rest` has no old record. */
  method MergeAll(previous: array<Record>, latest: map<UserId, Record>) returns (rest: map<UserId, Record>)
    requires Distinct(previous[..])
    modifies previous
    ensures forall i :: 0 <= i < previous.Length ==>
              previous[i] == if old(previous[i]).id in latest then Merge(old(previous[i]), latest[old(previous[i]).id]) else old(previous[i])
    ensures rest == latest - Ids(old(previous[..]))
  {
    ghost var start := previous[..];
    rest := latest;
    for n := 0 to previous.Length
      invariant forall i :: n <= i < previous.Length ==> previous[i] == start[i]
      invariant forall i :: 0 <= i < n ==> previous[i] == if start[i].id in latest then Merge(start[i], latest[start[i].id]) else start[i]
      invariant rest == latest - Ids(start[..n])
    {
      var r := previous[n];
      assert r == start[n];
      assert r.id in latest ==> r.id in rest && rest[r.id] == latest[r.id] by {
        if r.id in Ids(start[..n]) {
          var k :| 0 <= k < n && start[..n][k].id == r.id;
          assert start[k].id == start[n].id;
        }
      }
      assert Ids(start[..n + 1]) == Ids(start[..n]) + {r.id} by {
        assert forall i :: 0 <= i < n ==> start[..n + 1][i] == start[..n][i];
        assert start[..n + 1][n] == r;
      }
      if r.id in rest {
        previous[n] := Merge(r, rest[r.id]);
        rest := rest - {r.id};
      }
    }
    assert start[..previous.Length] == start;
  }

  /** The third loop: everyone else stays on the books, retired; the order is unspecified. */
  method RetireAll(rest: map<UserId, Record>) returns (extra: seq<Record>)
    requires forall id :: id in rest ==> rest[id].id == id
    ensures Distinct(extra) && Ids(extra) == rest.Keys
    ensures forall i :: 0 <= i < |extra| ==> extra[i].id in rest && extra[i] == Retire(rest[extra[i].id])
  {
    extra := [];
    var todo := rest.Keys;
    while todo != {}
      invariant todo <= rest.Keys && Distinct(extra) && Ids(extra) == rest.Keys - todo
      invariant forall i :: 0 <= i < |extra| ==> extra[i].id in rest && extra[i] == Retire(rest[extra[i].id])
    {
      var id :| id in todo;
      ghost var before := extra;
      extra := extra + [Retire(rest[id])];
      todo := todo - {id};
      assert Ids(extra) == Ids(before) + {id} by {
        assert forall i :: 0 <= i < |before| ==> before[i] == extra[i];
        assert extra[|before|].id == id;
      }
      assert forall i :: 0 <= i < |before| ==> before[i].id in Ids(before);
    }
  }

  /** preserveBusinessAccounting. */
  method PreserveAccounting(previous: array<Record>, current: seq<Record>) returns (out: seq<Record>)
    requires Distinct(previous[..]) && Distinct(current)
    modifies previous
    ensures Preserved(old(previous[..]), current, out)
  {
    ghost var start := previous[..];
    var latest := Index(current);
    var rest := MergeAll(previous, latest);
    var extra := RetireAll(rest);
    out := previous[..] + extra;
    PreservedHolds(start, current, latest, previous[..], extra);
  }

  lemma PreservedHolds(start: seq<Record>, current: seq<Record>, latest: map<UserId, Record>, merged: seq<Record>, extra: seq<Record>)
    requires Distinct(start) && Distinct(current) && Distinct(extra) && |merged| == |start|
    requires forall id :: id in latest <==> id in Ids(current)
    requires forall i :: 0 <= i < |current| ==> current[i].id in latest && latest[current[i].id] == current[i]
    requires forall i :: 0 <= i < |start| ==> merged[i] == if start[i].id in latest then Merge(start[i], latest[start[i].id]) else start[i]
    requires Ids(extra) == latest.Keys - Ids(start)
    requires forall i :: 0 <= i < |extra| ==> extra[i].id in latest && extra[i] == Retire(latest[extra[i].id])
    ensures Preserved(start, current, merged + extra)
  {
    var out := merged + extra;
    forall i | 0 <= i < |start| ensures MergedFrom(out[i], start[i], current) && out[i].id == start[i].id {
    }
    forall i | |start| <= i < |out| ensures RetiredFrom(out[i], start, current) && out[i].id !in Ids(start) {
      var r := extra[i - |start|];
      assert r.id in Ids(extra);
      var k :| 0 <= k < |current| && current[k].id == r.id;
      assert current[k] in current && out[i] == Retire(current[k]);
    }
    forall i, j | 0 <= i < j < |out| ensures out[i].id != out[j].id {
      if j < |start| {
      } else if i < |start| {
        assert out[i].id in Ids(start);
      } else {
        assert out[i] == extra[i - |start|] && out[j] == extra[j - |start|];
      }
    }
    forall u | u in current ensures u.id in Ids(out) {
      if u.id in Ids(start) {
        var k :| 0 <= k < |start| && start[k].id == u.id;
        assert out[k].id == u.id;
      } else {
        assert u.id in Ids(extra);
        var k :| 0 <= k < |extra| && extra[k].id == u.id;
        assert out[|start| + k].id == u.id;
      }
    }
  }
}
