/** Any report and any acknowledgement at all, honest or not: exactly which the controller books, and
    exactly which the child records. */
module MeterReports {
  import opened Common
  import opened Sums
  import opened MeterModel
  import opened MeterSafety
  import opened MeterExchange
  import opened MeterTheorems

  // ------------------------------------------------------------------ where a member starts

  /** What the controller demands of the report on member `u` before it looks at the rows: a metered total with
      a possible baseline, which is the one recorded before, or nothing, or no less than the aggregate; and a
      period that is the member's own or was sent. */
  predicate Admissible(v: Control, h: Heartbeat, u: UserId)
    requires u in h.usage
  {
    && h.usage[u].metered && u in h.baseline
    && h.baseline[u].up <= COUNTER_LIMIT && h.baseline[u].down <= COUNTER_LIMIT
    && (u in v.baseline ==> v.baseline[u] == h.baseline[u])
    && (u !in v.baseline && u in v.usage && v.usage[u].metered ==> h.baseline[u] == Pair(0, 0))
    && (u !in v.baseline && u in v.usage && !v.usage[u].metered ==>
          v.usage[u].up.raw <= h.baseline[u].up && v.usage[u].down.raw <= h.baseline[u].down)
    && (u in v.usage && v.usage[u].metered && v.usage[u].period != h.usage[u].period ==> (u, h.usage[u].period) in v.periods)
  }

  /** The raw bytes, or thousandths of weighted bytes, from which the rows are added up. */
  function StartMeasure(v: Control, h: Heartbeat, u: UserId, up: bool, weighted: bool): nat
    requires u in h.usage && u in h.baseline
  {
    if u in v.usage && v.usage[u].metered then
      var t := TotalOf(v.usage[u], up);
      if !weighted then t.raw
      else 1000 * t.quota + if v.usage[u].period == h.usage[u].period then t.rest else 0
    else
      (if u !in v.baseline then Direction(h.baseline[u], up) else if u in v.usage then TotalOf(v.usage[u], up).raw else 0)
      * (if weighted then 1000 else 1)
  }

  ghost predicate UsageFine(v: Control)
  {
    forall u :: u in v.usage ==>
      if v.usage[u].metered then Sound(v.usage[u], true) && Sound(v.usage[u], false)
      else v.usage[u].up.raw <= COUNTER_LIMIT && v.usage[u].down.raw <= COUNTER_LIMIT
  }

  lemma StartIs(v: Control, h: Heartbeat, u: UserId)
    requires u in h.usage && UsageFine(v)
    ensures StartOf(v, h, u).Some? <==> Admissible(v, h, u)
    ensures StartOf(v, h, u).Some? ==>
              var x := StartOf(v, h, u).value;
              && x.metered && x.period == h.usage[u].period && Sound(x, true) && Sound(x, false)
              && forall up, weighted :: Measure(x, up, weighted) == StartMeasure(v, h, u, up, weighted)
  {
  }

  // ------------------------------------------------------------------ the whole report

  /** Every row is new in the report, under a rule and in a period that were sent, of a reported member, and
      not behind the controller's own row. */
  ghost predicate RowsTaken(v: Control, h: Heartbeat)
  {
    && (forall i, j :: 0 <= i < j < |h.rows| ==> h.rows[i].key != h.rows[j].key)
    && forall i :: 0 <= i < |h.rows| ==> RowTaken(v, h, h.rows[i])
  }

  predicate RowTaken(v: Control, h: Heartbeat, row: Row)
  {
    && (row.key.node, row.key.rule) in v.rules && (row.key.user, row.key.period) in v.periods && row.key.user in h.usage
    && (row.key in v.rows ==> v.rows[row.key].up <= row.bytes.up && v.rows[row.key].down <= row.bytes.down)
  }

  /** The reported total is the start and the growth of the rows, in both readings and directions. */
  ghost predicate AddsUp(v: Control, h: Heartbeat, u: UserId)
    requires u in h.usage && u in h.baseline
  {
    && Sound(h.usage[u], true) && Sound(h.usage[u], false)
    && forall up, weighted :: Measure(h.usage[u], up, weighted) == StartMeasure(v, h, u, up, weighted) + Growth(h.rows, v.rows, u, up, weighted)
  }

  ghost predicate Taken(v: Control, h: Heartbeat)
  {
    && |h.rows| <= 32768 && RowsTaken(v, h)
    && forall u :: u in h.usage ==> Admissible(v, h, u) && AddsUp(v, h, u)
  }

  lemma RowsTakenAreFine(v: Control, h: Heartbeat, sums: map<UserId, Usage>)
    requires sums.Keys == h.usage.Keys
    ensures RowsFine(v, sums, h.rows) <==> RowsTaken(v, h)
  {
    forall i | 0 <= i < |h.rows| ensures RowFine(v, sums, h.rows[i]) <==> RowTaken(v, h, h.rows[i]) {}
  }

  lemma AddsUpHasRoom(v: Control, h: Heartbeat, u: UserId, x: Usage)
    requires u in h.usage && u in h.baseline && AddsUp(v, h, u)
    requires forall up, weighted :: Measure(x, up, weighted) == StartMeasure(v, h, u, up, weighted)
    ensures Room(x, h.rows, v.rows, u)
  {
    forall up, weighted ensures FitsLimit(x, Growth(h.rows, v.rows, u, up, weighted), up, weighted) {
      assert Measure(h.usage[u], up, weighted) == Measure(x, up, weighted) + Growth(h.rows, v.rows, u, up, weighted);
    }
  }

  lemma AddsUpIsGrown(v: Control, h: Heartbeat, u: UserId, x: Usage, z: Usage)
    requires u in h.usage && u in h.baseline && h.usage[u].metered && x.metered && x.period == h.usage[u].period
    requires forall up, weighted :: Measure(x, up, weighted) == StartMeasure(v, h, u, up, weighted)
    requires Grown(x, z, h.rows, v.rows, u)
    ensures AddsUp(v, h, u) <==> z == h.usage[u]
  {
    if AddsUp(v, h, u) {
      forall up, weighted ensures Measure(z, up, weighted) == Measure(h.usage[u], up, weighted) {
        assert Measure(h.usage[u], up, weighted) == StartMeasure(v, h, u, up, weighted) + Growth(h.rows, v.rows, u, up, weighted);
      }
      MeasuresDetermine(z, h.usage[u]);
    }
  }

  lemma StartsAre(v: Control, h: Heartbeat) returns (sums: map<UserId, Usage>)
    requires UsageFine(v) && forall u :: u in h.usage ==> Admissible(v, h, u)
    ensures sums.Keys == h.usage.Keys && forall u :: u in h.usage ==> StartOf(v, h, u) == Some(sums[u])
    ensures Verified(v, h) <==> |h.rows| <= 32768 && Recompute(v, sums, h.rows) == Some(h.usage)
  {
    forall u | u in h.usage ensures StartOf(v, h, u).Some? { StartIs(v, h, u); }
    sums := Starts(v, h);
  }

  lemma TakenIsVerified(v: Control, h: Heartbeat)
    requires UsageFine(v) && RulesFine(v.rules) && Taken(v, h)
    ensures Verified(v, h)
  {
    var sums := StartsAre(v, h);
    RowsTakenAreFine(v, h, sums);
    forall u | u in sums ensures Sound(sums[u], true) && Sound(sums[u], false) && Room(sums[u], h.rows, v.rows, u) {
      StartIs(v, h, u);
      AddsUpHasRoom(v, h, u, sums[u]);
    }
    RecomputeSucceeds(v, sums, h.rows);
    RecomputeExact(v, sums, h.rows);
    var m := Recompute(v, sums, h.rows).value;
    forall u | u in sums ensures m[u] == h.usage[u] {
      StartIs(v, h, u);
      AddsUpIsGrown(v, h, u, sums[u], m[u]);
    }
    assert m == h.usage;
  }

  lemma VerifiedStarts(v: Control, h: Heartbeat)
    requires UsageFine(v) && Verified(v, h)
    ensures forall u :: u in h.usage ==> Admissible(v, h, u)
  {
    forall u | u in h.usage ensures Admissible(v, h, u) {
      assert StartOf(v, h, u).Some?;
      StartIs(v, h, u);
    }
  }

  lemma VerifiedIsTaken(v: Control, h: Heartbeat)
    requires UsageFine(v) && RulesFine(v.rules) && Verified(v, h)
    ensures Taken(v, h)
  {
    VerifiedStarts(v, h);
    var sums := StartsAre(v, h);
    forall u | u in sums ensures Sound(sums[u], true) && Sound(sums[u], false) { StartIs(v, h, u); }
    RecomputeExact(v, sums, h.rows);
    RowsTakenAreFine(v, h, sums);
    forall u | u in h.usage ensures AddsUp(v, h, u) {
      StartIs(v, h, u);
      AddsUpIsGrown(v, h, u, sums[u], h.usage[u]);
    }
  }

  lemma ReachableUsage(s: State)
    requires Inv(s)
    ensures UsageFine(s.control) && RulesFine(s.control.rules)
  {
    forall u | u in s.control.usage
      ensures if s.control.usage[u].metered then Sound(s.control.usage[u], true) && Sound(s.control.usage[u], false)
              else s.control.usage[u].up.raw <= COUNTER_LIMIT && s.control.usage[u].down.raw <= COUNTER_LIMIT
    {
      assert Held(s.child, s.control, u);
      if u in s.child.base { assert MemberFine(s.child, s.control, u); }
    }
  }

  /** In every reachable state, any report at all passes the verification if and only if it may have its rows,
      each member starts admissibly, and each total adds up. */
  lemma ReportTakenExactlyWhen(s: State, es: seq<Event>, t: State, h: Heartbeat)
    requires Init(s) && Reaches(s, es, t)
    ensures Verified(t.control, h) <==> Taken(t.control, h)
    ensures Accepted(t.control, h) <==> Taken(t.control, h) && |h.usage| <= 4096
  {
    ReachableInv(s, es, t);
    ReachableUsage(t);
    if Taken(t.control, h) { TakenIsVerified(t.control, h); }
    if Verified(t.control, h) { VerifiedIsTaken(t.control, h); }
  }

  // ------------------------------------------------------------------ any acknowledgement

  /** The child has the row at least as far. */
  predicate Carried(table: map<Key, Pair>, row: Row)
  {
    row.key in table && row.bytes.up <= table[row.key].up && row.bytes.down <= table[row.key].down
  }

  /** The row is acknowledged as far as it says, unless more or something else was before. */
  predicate Noted(acks: map<Key, Pair>, row: Row, m: map<Key, Pair>)
  {
    var k, b := row.key, row.bytes;
    k in m && m[k] == if k in acks && !(acks[k].up <= b.up && acks[k].down <= b.down) then acks[k] else b
  }

  ghost predicate Recorded(acks: map<Key, Pair>, rows: seq<Row>, m: map<Key, Pair>)
  {
    && m.Keys == acks.Keys + KeysOf(rows)
    && (forall k :: k in acks && k !in KeysOf(rows) ==> m[k] == acks[k])
    && forall i :: 0 <= i < |rows| ==> Noted(acks, rows[i], m)
  }

  ghost predicate AllCarried(table: map<Key, Pair>, rows: seq<Row>)
  {
    forall i :: 0 <= i < |rows| ==> Carried(table, rows[i])
  }

  lemma CarriedOneMore(table: map<Key, Pair>, init: seq<Row>, row: Row)
    ensures AllCarried(table, init + [row]) <==> AllCarried(table, init) && Carried(table, row)
    ensures Distinct(init + [row]) ==> Distinct(init)
  {
    var rows := init + [row];
    assert rows[|init|] == row;
    forall i | 0 <= i < |init| ensures rows[i] == init[i] {}
  }

  lemma RecordedOneMore(acks: map<Key, Pair>, init: seq<Row>, row: Row, m: map<Key, Pair>)
    requires Distinct(init + [row]) && Recorded(acks, init, m)
    ensures Recorded(acks, init + [row], if row.key !in m || Within(m[row.key], row.bytes) then m[row.key := row.bytes] else m)
  {
    var rows := init + [row];
    assert rows[|init|] == row;
    forall i | 0 <= i < |init| ensures rows[i] == init[i] && init[i].key != row.key {}
    assert KeysOf(rows) == KeysOf(init) + {row.key};
  }

  /** `a` is right for the rows: something if and only if the child has all of them, and then what they say. */
  ghost predicate RecordedIf(acks: map<Key, Pair>, table: map<Key, Pair>, rows: seq<Row>, a: Option<map<Key, Pair>>)
  {
    && (a.Some? <==> AllCarried(table, rows))
    && (a.Some? ==> Recorded(acks, rows, a.value))
  }

  lemma RecordedIfOneMore(acks: map<Key, Pair>, table: map<Key, Pair>, init: seq<Row>, row: Row, a: Option<map<Key, Pair>>, b: Option<map<Key, Pair>>)
    requires Distinct(init + [row]) && RecordedIf(acks, table, init, a)
    requires b == if a.None? || !Carried(table, row) then None
                  else if row.key !in a.value || Within(a.value[row.key], row.bytes) then Some(a.value[row.key := row.bytes])
                  else a
    ensures RecordedIf(acks, table, init + [row], b)
  {
    CarriedOneMore(table, init, row);
    if b.Some? { RecordedOneMore(acks, init, row, a.value); }
  }

  /** Any list of distinct rows is recorded as a whole if and only if the child has all of them at least as far;
      a row then counts as acknowledged as far as it says, unless more or something else was before. */
  lemma {:induction false} RecordedExactlyWhen(acks: map<Key, Pair>, table: map<Key, Pair>, rows: seq<Row>)
    requires Distinct(rows)
    ensures RecordedIf(acks, table, rows, Acknowledge(acks, table, rows))
    decreases |rows|
  {
    if rows != [] {
      var init, row := rows[..|rows| - 1], rows[|rows| - 1];
      RecordedExactlyWhen(acks, table, init);
      assert rows == init + [row];
      RecordedIfOneMore(acks, table, init, row, Acknowledge(acks, table, init), Acknowledge(acks, table, rows));
    }
  }
}
