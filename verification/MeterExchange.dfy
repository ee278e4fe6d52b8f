/** The controller's recomputation in closed form, and runs of the metering exchange. */
module MeterExchange {
  import opened Common
  import opened Sums
  import opened MeterModel
  import opened MeterSafety

  // ------------------------------------------------------------------ growth of rows

  /** What the rows add over the controller's table. */
  ghost function Growth(rows: seq<Row>, was: map<Key, Pair>, u: UserId, up: bool, weighted: bool): int
    decreases |rows|
  {
    if rows == [] then 0
    else
      var row := rows[|rows| - 1];
      Growth(rows[..|rows| - 1], was, u, up, weighted)
      + Share(row.key, row.bytes, u, up, weighted) - Share(row.key, RowOr(was, row.key), u, up, weighted)
  }

  ghost predicate Ahead(rows: seq<Row>, was: map<Key, Pair>)
  {
    forall i :: 0 <= i < |rows| ==> Within(RowOr(was, rows[i].key), rows[i].bytes)
  }

  lemma ShareMonotone(k: Key, a: Pair, b: Pair, u: UserId, up: bool, weighted: bool)
    requires Within(a, b)
    ensures Share(k, a, u, up, weighted) <= Share(k, b, u, up, weighted)
  {
    ProductBelow(Direction(a, up), Direction(b, up), if weighted then k.rule.rate else 1, if weighted then k.rule.rate else 1);
  }

  ghost function Gains(at: map<Key, Pair>, was: map<Key, Pair>, u: UserId, up: bool, weighted: bool): Key -> int
  {
    k => Share(k, RowOr(at, k), u, up, weighted) - Share(k, RowOr(was, k), u, up, weighted)
  }

  lemma {:induction false} GrowthIsSum(rows: seq<Row>, at: map<Key, Pair>, was: map<Key, Pair>, u: UserId, up: bool, weighted: bool)
    requires Distinct(rows)
    requires forall i :: 0 <= i < |rows| ==> rows[i].key in at && rows[i].bytes == at[rows[i].key]
    ensures Growth(rows, was, u, up, weighted) == Sum(KeysOf(rows), Gains(at, was, u, up, weighted))
    decreases |rows|
  {
    if rows != [] {
      var init, row := rows[..|rows| - 1], rows[|rows| - 1];
      GrowthIsSum(init, at, was, u, up, weighted);
      assert KeysOf(rows) == KeysOf(init) + {row.key} by {
        assert forall i :: 0 <= i < |init| ==> init[i] == rows[i];
      }
      SumInsert(KeysOf(init), Gains(at, was, u, up, weighted), row.key);
    }
  }

  lemma SettledRow(at: map<Key, Pair>, was: map<Key, Pair>, acks: map<Key, Pair>, k: Key)
    requires Below(acks, was) && Below(was, at) && k in at && !Pending(at, acks, k)
    ensures k in was && was[k] == at[k]
  {
    assert k in acks;
  }

  /** The pending rows alone carry everything the controller has not booked. */
  lemma PendingCarriesAll(rows: seq<Row>, at: map<Key, Pair>, was: map<Key, Pair>, acks: map<Key, Pair>, u: UserId, up: bool, weighted: bool)
    requires Listing(rows, at, acks) && Below(acks, was) && Below(was, at)
    ensures Tally(at, u, up, weighted) == Tally(was, u, up, weighted) + Growth(rows, was, u, up, weighted)
  {
    var gains := Gains(at, was, u, up, weighted);
    TallyWiden(was, at.Keys, u, up, weighted);
    SumPlus(at.Keys, Shares(was, u, up, weighted), gains, Shares(at, u, up, weighted));
    GrowthIsSum(rows, at, was, u, up, weighted);
    forall k | k in at.Keys && k !in KeysOf(rows) ensures gains(k) == 0 {
      SettledRow(at, was, acks, k);
    }
    SumSubset(at.Keys, KeysOf(rows), gains);
  }

  // ------------------------------------------------------------------ recomputation

  ghost predicate FitsLimit(x: Usage, more: int, up: bool, weighted: bool)
  {
    if weighted then (Measure(x, up, true) + more) / 1000 <= COUNTER_LIMIT else Measure(x, up, false) + more <= COUNTER_LIMIT
  }

  ghost predicate Room(x: Usage, rows: seq<Row>, was: map<Key, Pair>, u: UserId)
  {
    forall up, weighted :: FitsLimit(x, Growth(rows, was, u, up, weighted), up, weighted)
  }

  /** `y` is `x` after the growth of `rows`. */
  ghost predicate Grown(x: Usage, y: Usage, rows: seq<Row>, was: map<Key, Pair>, u: UserId)
  {
    && y.metered == x.metered && y.period == x.period && Sound(y, true) && Sound(y, false)
    && forall up, weighted :: Measure(y, up, weighted) == Measure(x, up, weighted) + Growth(rows, was, u, up, weighted)
  }

  ghost predicate RowsFine(v: Control, sums: map<UserId, Usage>, rows: seq<Row>)
  {
    Distinct(rows) && forall i :: 0 <= i < |rows| ==> RowFine(v, sums, rows[i])
  }

  lemma RoomBefore(x: Usage, rows: seq<Row>, was: map<Key, Pair>, u: UserId)
    requires rows != [] && Ahead(rows, was) && Room(x, rows, was, u)
    ensures Room(x, rows[..|rows| - 1], was, u)
  {
    var init, row := rows[..|rows| - 1], rows[|rows| - 1];
    forall up, weighted ensures FitsLimit(x, Growth(init, was, u, up, weighted), up, weighted) {
      assert FitsLimit(x, Growth(rows, was, u, up, weighted), up, weighted);
      ShareMonotone(row.key, RowOr(was, row.key), row.bytes, u, up, weighted);
    }
  }

  lemma ShareDifference(k: Key, a: Pair, b: Pair, up: bool)
    requires Within(a, b)
    ensures Share(k, b, k.user, up, true) - Share(k, a, k.user, up, true) == (Direction(b, up) - Direction(a, up)) * k.rule.rate
    ensures Share(k, b, k.user, up, false) - Share(k, a, k.user, up, false) == Direction(b, up) - Direction(a, up)
  {
  }

  /** One direction of the last row: charged exactly, unless a limit is passed. */
  lemma LastCharge(x: Usage, y: Usage, rows: seq<Row>, was: map<Key, Pair>, up: bool)
    requires rows != [] && Within(RowOr(was, rows[|rows| - 1].key), rows[|rows| - 1].bytes)
    requires ValidRate(rows[|rows| - 1].key.rule.rate)
    requires Grown(x, y, rows[..|rows| - 1], was, rows[|rows| - 1].key.user)
    ensures var row := rows[|rows| - 1];
            var charge := Charge(TotalOf(y, up), Direction(row.bytes, up) - Direction(RowOr(was, row.key), up), row.key.rule.rate);
            && (charge.Some? <==> (FitsLimit(x, Growth(rows, was, row.key.user, up, false), up, false)
                                   && FitsLimit(x, Growth(rows, was, row.key.user, up, true), up, true)))
            && (charge.Some? ==>
                  var t := charge.value;
                  && t.raw <= COUNTER_LIMIT && t.quota <= COUNTER_LIMIT && t.rest < 1000
                  && t.raw == Measure(x, up, false) + Growth(rows, was, row.key.user, up, false)
                  && 1000 * t.quota + t.rest == Measure(x, up, true) + Growth(rows, was, row.key.user, up, true))
  {
    var row := rows[|rows| - 1];
    ShareDifference(row.key, RowOr(was, row.key), row.bytes, up);
    assert Measure(y, up, false) == Measure(x, up, false) + Growth(rows[..|rows| - 1], was, row.key.user, up, false);
    assert Measure(y, up, true) == Measure(x, up, true) + Growth(rows[..|rows| - 1], was, row.key.user, up, true);
    ChargeExact(TotalOf(y, up), Direction(row.bytes, up) - Direction(RowOr(was, row.key), up), row.key.rule.rate);
  }

  lemma LastRow(x: Usage, y: Usage, rows: seq<Row>, was: map<Key, Pair>)
    requires rows != [] && Within(RowOr(was, rows[|rows| - 1].key), rows[|rows| - 1].bytes)
    requires ValidRate(rows[|rows| - 1].key.rule.rate)
    requires Grown(x, y, rows[..|rows| - 1], was, rows[|rows| - 1].key.user)
    ensures var row := rows[|rows| - 1];
            && (Room(x, rows, was, row.key.user) ==> ChargeRow(y, RowOr(was, row.key), row).Some?)
            && (ChargeRow(y, RowOr(was, row.key), row).Some? ==>
                  Grown(x, ChargeRow(y, RowOr(was, row.key), row).value, rows, was, row.key.user))
  {
    LastCharge(x, y, rows, was, true);
    LastCharge(x, y, rows, was, false);
    var row := rows[|rows| - 1];
    if ChargeRow(y, RowOr(was, row.key), row).Some? {
      GrownBoth(x, ChargeRow(y, RowOr(was, row.key), row).value, rows, was, row.key.user);
    }
  }

  lemma GrownBoth(x: Usage, z: Usage, rows: seq<Row>, was: map<Key, Pair>, u: UserId)
    requires z.metered == x.metered && z.period == x.period && Sound(z, true) && Sound(z, false)
    requires Measure(z, true, true) == Measure(x, true, true) + Growth(rows, was, u, true, true)
    requires Measure(z, true, false) == Measure(x, true, false) + Growth(rows, was, u, true, false)
    requires Measure(z, false, true) == Measure(x, false, true) + Growth(rows, was, u, false, true)
    requires Measure(z, false, false) == Measure(x, false, false) + Growth(rows, was, u, false, false)
    ensures Grown(x, z, rows, was, u)
  {
    forall up, weighted ensures Measure(z, up, weighted) == Measure(x, up, weighted) + Growth(rows, was, u, up, weighted) {
      if up { if weighted { } } else if weighted { }
    }
  }

  ghost predicate AllGrown(sums: map<UserId, Usage>, m: map<UserId, Usage>, rows: seq<Row>, was: map<Key, Pair>)
  {
    m.Keys == sums.Keys && forall u :: u in sums ==> Grown(sums[u], m[u], rows, was, u)
  }

  lemma GrownAfterRow(v: Control, sums: map<UserId, Usage>, m: map<UserId, Usage>, rows: seq<Row>, x: Usage)
    requires rows != [] && RulesFine(v.rules) && AllGrown(sums, m, rows[..|rows| - 1], v.rows)
    requires RowFine(v, m, rows[|rows| - 1])
    requires ChargeRow(m[rows[|rows| - 1].key.user], RowOr(v.rows, rows[|rows| - 1].key), rows[|rows| - 1]) == Some(x)
    ensures AllGrown(sums, m[rows[|rows| - 1].key.user := x], rows, v.rows)
  {
    var w := rows[|rows| - 1].key.user;
    LastRow(sums[w], m[w], rows, v.rows);
    forall u | u in sums && u != w ensures Grown(sums[u], m[u], rows, v.rows, u) {
    }
  }

  /** Whenever the recomputation goes through, it added each member's growth to its start, in raw and
      in weighted bytes, and every row was under a rule and in a period the controller sent. */
  lemma {:induction false} RecomputeExact(v: Control, sums: map<UserId, Usage>, rows: seq<Row>)
    requires RulesFine(v.rules)
    requires forall u :: u in sums ==> Sound(sums[u], true) && Sound(sums[u], false)
    ensures Recompute(v, sums, rows).Some? ==> AllGrown(sums, Recompute(v, sums, rows).value, rows, v.rows)
    ensures Recompute(v, sums, rows).Some? ==> RowsFine(v, sums, rows)
    decreases |rows|
  {
    if rows != [] {
      var init, row := rows[..|rows| - 1], rows[|rows| - 1];
      RecomputeExact(v, sums, init);
      if Recompute(v, sums, rows).Some? {
        var m := Recompute(v, sums, init).value;
        GrownAfterRow(v, sums, m, rows, ChargeRow(m[row.key.user], RowOr(v.rows, row.key), row).value);
        LastRowFine(v, sums, rows);
      }
    }
  }

  lemma LastRowFine(v: Control, sums: map<UserId, Usage>, rows: seq<Row>)
    requires rows != [] && RowsFine(v, sums, rows[..|rows| - 1]) && RowFine(v, sums, rows[|rows| - 1])
    requires rows[|rows| - 1].key !in KeysOf(rows[..|rows| - 1])
    ensures RowsFine(v, sums, rows)
  {
    var init := rows[..|rows| - 1];
    forall i | 0 <= i < |init| ensures init[i].key in KeysOf(init) && rows[i] == init[i] && RowFine(v, sums, rows[i]) {
      assert RowFine(v, sums, init[i]);
    }
  }

  /** The recomputation goes through as long as the outcome stays within the counter limits. */
  lemma {:induction false} RecomputeSucceeds(v: Control, sums: map<UserId, Usage>, rows: seq<Row>)
    requires RulesFine(v.rules) && RowsFine(v, sums, rows)
    requires forall u :: u in sums ==> Sound(sums[u], true) && Sound(sums[u], false) && Room(sums[u], rows, v.rows, u)
    ensures Recompute(v, sums, rows).Some?
    decreases |rows|
  {
    if rows != [] {
      var init, row := rows[..|rows| - 1], rows[|rows| - 1];
      forall u | u in sums ensures Room(sums[u], init, v.rows, u) {
        RoomBefore(sums[u], rows, v.rows, u);
      }
      RecomputeSucceeds(v, sums, init);
      RecomputeExact(v, sums, init);
      assert RowFine(v, sums, row);
      LastRow(sums[row.key.user], Recompute(v, sums, init).value[row.key.user], rows, v.rows);
    }
  }

  // ------------------------------------------------------------------ honest reports

  lemma MeasuresDetermine(x: Usage, y: Usage)
    requires x.metered == y.metered && x.period == y.period
    requires Sound(x, true) && Sound(x, false) && Sound(y, true) && Sound(y, false)
    requires forall up, weighted :: Measure(x, up, weighted) == Measure(y, up, weighted)
    ensures x == y
  {
    assert Measure(x, true, true) == Measure(y, true, true) && Measure(x, true, false) == Measure(y, true, false);
    assert Measure(x, false, true) == Measure(y, false, true) && Measure(x, false, false) == Measure(y, false, false);
  }

  lemma BaseAccounted(v: Control, h: Heartbeat, u: UserId, c: Child)
    requires Held(c, v, u) && u in c.base && u in h.baseline && h.baseline[u] == c.base[u]
    requires c.base[u].up <= COUNTER_LIMIT && c.base[u].down <= COUNTER_LIMIT
    ensures BaseOf(v, h, u).Some? && Accounted(BaseOf(v, h, u).value, c.base[u], v.rows, LossOf(v.lost, u), u)
    ensures forall p :: Dropped(BaseOf(v, h, u).value, p) == Forgets(v, u, p)
  {
    if !Metered(v, u) {
      FromBaseAccounted(v.rows, u, c.base[u], "");
    }
  }

  /** The start is what the controller's own table accounts for, less what it forgets now. */
  lemma StartAccounted(s: State, h: Heartbeat, at: map<Key, Pair>, lost: map<UserId, Pair>, u: UserId)
    requires Inv(s) && Honest(s, h, at, lost) && u in h.usage
    ensures StartOf(s.control, h, u).Some? && StartOf(s.control, h, u).value.period == h.usage[u].period
    ensures Accounted(StartOf(s.control, h, u).value, h.baseline[u], s.control.rows, LossAfter(s.control, h, u), u)
  {
    assert Held(s.child, s.control, u) && ReportFine(s, h, at, lost, u) && MemberFine(s.child, s.control, u);
    BaseAccounted(s.control, h, u, s.child);
    TurnAccounted(BaseOf(s.control, h, u).value, h.baseline[u], s.control.rows, LossOf(s.control.lost, u), u, h.usage[u].period);
  }

  /** The growth of the rows leads from `x` to `y`, up to the difference of two losses. */
  ghost predicate Leads(x: Usage, y: Usage, rows: seq<Row>, was: map<Key, Pair>, u: UserId, here: Pair, there: Pair, up: bool, weighted: bool)
  {
    Measure(x, up, weighted) + Growth(rows, was, u, up, weighted)
    == Measure(y, up, weighted) + (if weighted then Direction(here, up) - Direction(there, up) else 0)
  }

  ghost predicate LeadsTo(x: Usage, y: Usage, rows: seq<Row>, was: map<Key, Pair>, u: UserId, here: Pair, there: Pair)
  {
    && x.metered && y.metered && x.period == y.period
    && Sound(x, true) && Sound(x, false) && Sound(y, true) && Sound(y, false)
    && forall up, weighted :: Leads(x, y, rows, was, u, here, there, up, weighted)
  }

  ghost predicate Startable(v: Control, h: Heartbeat, lost: map<UserId, Pair>, u: UserId, x: Usage)
    requires u in h.usage
  {
    StartOf(v, h, u) == Some(x) && LeadsTo(x, h.usage[u], h.rows, v.rows, u, LossOf(lost, u), LossAfter(v, h, u))
  }

  lemma AccountsLead(x: Usage, y: Usage, base: Pair, rows: seq<Row>, was: map<Key, Pair>, at: map<Key, Pair>, acks: map<Key, Pair>,
                     u: UserId, here: Pair, there: Pair)
    requires Listing(rows, at, acks) && Below(acks, was) && Below(was, at)
    requires Accounted(x, base, was, there, u) && Accounted(y, base, at, here, u) && x.period == y.period
    ensures LeadsTo(x, y, rows, was, u, here, there)
  {
    forall up, weighted ensures Leads(x, y, rows, was, u, here, there, up, weighted) {
      PendingCarriesAll(rows, at, was, acks, u, up, weighted);
      assert AccountedIn(x, base, was, there, u, up, weighted);
      assert AccountedIn(y, base, at, here, u, up, weighted);
    }
  }

  lemma HonestStart(s: State, h: Heartbeat, at: map<Key, Pair>, lost: map<UserId, Pair>, u: UserId)
    requires Inv(s) && Honest(s, h, at, lost) && u in h.usage
    ensures StartOf(s.control, h, u).Some? && Startable(s.control, h, lost, u, StartOf(s.control, h, u).value)
  {
    StartAccounted(s, h, at, lost, u);
    assert ReportFine(s, h, at, lost, u);
    AccountsLead(StartOf(s.control, h, u).value, h.usage[u], h.baseline[u], h.rows, s.control.rows, at, s.child.acks, u,
                 LossOf(lost, u), LossAfter(s.control, h, u));
  }

  /** Both sides have dropped the same thousandths. */
  ghost predicate LossesAgree(v: Control, h: Heartbeat, lost: map<UserId, Pair>)
  {
    forall u :: u in h.usage ==> LossOf(lost, u) == LossAfter(v, h, u)
  }

  ghost predicate AllIssued(v: Control, rows: seq<Row>)
  {
    forall i :: 0 <= i < |rows| ==> Issued(v, rows[i].key)
  }

  lemma LeadsMeasure(x: Usage, y: Usage, rows: seq<Row>, was: map<Key, Pair>, u: UserId, loss: Pair, up: bool, weighted: bool)
    requires LeadsTo(x, y, rows, was, u, loss, loss)
    ensures Measure(x, up, weighted) + Growth(rows, was, u, up, weighted) == Measure(y, up, weighted)
    ensures FitsLimit(x, Growth(rows, was, u, up, weighted), up, weighted)
  {
    assert Leads(x, y, rows, was, u, loss, loss, up, weighted);
    assert Sound(y, up);
  }

  lemma AgreedRoom(x: Usage, y: Usage, rows: seq<Row>, was: map<Key, Pair>, u: UserId, loss: Pair)
    requires LeadsTo(x, y, rows, was, u, loss, loss)
    ensures Room(x, rows, was, u)
  {
    forall up, weighted ensures FitsLimit(x, Growth(rows, was, u, up, weighted), up, weighted) {
      LeadsMeasure(x, y, rows, was, u, loss, up, weighted);
    }
  }

  lemma AgreedOutcome(x: Usage, y: Usage, z: Usage, rows: seq<Row>, was: map<Key, Pair>, u: UserId, loss: Pair)
    requires LeadsTo(x, y, rows, was, u, loss, loss) && Grown(x, z, rows, was, u)
    ensures z == y
  {
    forall up, weighted ensures Measure(z, up, weighted) == Measure(y, up, weighted) {
      LeadsMeasure(x, y, rows, was, u, loss, up, weighted);
    }
    MeasuresDetermine(z, y);
  }

  lemma GrownAgrees(x: Usage, y: Usage, rows: seq<Row>, was: map<Key, Pair>, u: UserId, here: Pair, there: Pair)
    requires LeadsTo(x, y, rows, was, u, here, there) && Grown(x, y, rows, was, u)
    ensures here == there
  {
    assert Leads(x, y, rows, was, u, here, there, true, true) && Leads(x, y, rows, was, u, here, there, false, true);
    assert Measure(y, true, true) == Measure(x, true, true) + Growth(rows, was, u, true, true);
    assert Measure(y, false, true) == Measure(x, false, true) + Growth(rows, was, u, false, true);
  }

  /** Every member starts where the growth of the rows leads to its reported totals. */
  ghost predicate AllLead(sums: map<UserId, Usage>, usage: map<UserId, Usage>, rows: seq<Row>, was: map<Key, Pair>, lost: map<UserId, Pair>)
  {
    sums.Keys == usage.Keys && forall u :: u in sums ==> LeadsTo(sums[u], usage[u], rows, was, u, LossOf(lost, u), LossOf(lost, u))
  }

  lemma SameTotals(sums: map<UserId, Usage>, m: map<UserId, Usage>, usage: map<UserId, Usage>, rows: seq<Row>, was: map<Key, Pair>,
                   lost: map<UserId, Pair>)
    requires AllLead(sums, usage, rows, was, lost) && AllGrown(sums, m, rows, was)
    ensures m == usage
  {
    forall u | u in usage ensures m[u] == usage[u] {
      AgreedOutcome(sums[u], usage[u], m[u], rows, was, u, LossOf(lost, u));
    }
  }

  lemma LeadingRecompute(v: Control, sums: map<UserId, Usage>, usage: map<UserId, Usage>, rows: seq<Row>, lost: map<UserId, Pair>)
    requires RulesFine(v.rules) && RowsFine(v, sums, rows) && AllLead(sums, usage, rows, v.rows, lost)
    ensures Recompute(v, sums, rows) == Some(usage)
  {
    forall u | u in sums ensures Sound(sums[u], true) && Sound(sums[u], false) && Room(sums[u], rows, v.rows, u) {
      AgreedRoom(sums[u], usage[u], rows, v.rows, u, LossOf(lost, u));
    }
    RecomputeSucceeds(v, sums, rows);
    RecomputeExact(v, sums, rows);
    SameTotals(sums, Recompute(v, sums, rows).value, usage, rows, v.rows, lost);
  }

  lemma RecomputeReported(v: Control, h: Heartbeat, lost: map<UserId, Pair>, sums: map<UserId, Usage>)
    requires RulesFine(v.rules) && RowsFine(v, sums, h.rows) && LossesAgree(v, h, lost)
    requires sums.Keys == h.usage.Keys && forall u :: u in sums ==> Startable(v, h, lost, u, sums[u])
    ensures Recompute(v, sums, h.rows) == Some(h.usage)
  {
    forall u | u in sums ensures LeadsTo(sums[u], h.usage[u], h.rows, v.rows, u, LossOf(lost, u), LossOf(lost, u)) {
      assert Startable(v, h, lost, u, sums[u]);
    }
    LeadingRecompute(v, sums, h.usage, h.rows, lost);
  }

  lemma RecomputeRefuses(v: Control, h: Heartbeat, lost: map<UserId, Pair>, sums: map<UserId, Usage>)
    requires RulesFine(v.rules) && Recompute(v, sums, h.rows) == Some(h.usage)
    requires sums.Keys == h.usage.Keys && forall u :: u in sums ==> Startable(v, h, lost, u, sums[u])
    ensures AllIssued(v, h.rows) && LossesAgree(v, h, lost)
  {
    forall u | u in sums ensures Sound(sums[u], true) && Sound(sums[u], false) {
      assert Startable(v, h, lost, u, sums[u]);
    }
    RecomputeExact(v, sums, h.rows);
    forall i | 0 <= i < |h.rows| ensures Issued(v, h.rows[i].key) {
      assert RowFine(v, sums, h.rows[i]);
    }
    forall u | u in h.usage ensures LossOf(lost, u) == LossAfter(v, h, u) {
      assert Startable(v, h, lost, u, sums[u]);
      GrownAgrees(sums[u], h.usage[u], h.rows, v.rows, u, LossOf(lost, u), LossAfter(v, h, u));
    }
  }

  lemma HonestRowsFine(s: State, h: Heartbeat, at: map<Key, Pair>, lost: map<UserId, Pair>, sums: map<UserId, Usage>)
    requires Inv(s) && Honest(s, h, at, lost) && sums.Keys == h.usage.Keys && AllIssued(s.control, h.rows)
    ensures RowsFine(s.control, sums, h.rows)
  {
    forall i | 0 <= i < |h.rows| ensures RowFine(s.control, sums, h.rows[i]) {
      assert Pending(at, s.child.acks, h.rows[i].key);
    }
  }

  ghost predicate AllStartable(v: Control, h: Heartbeat, lost: map<UserId, Pair>)
  {
    forall u :: u in h.usage ==> StartOf(v, h, u).Some? && Startable(v, h, lost, u, StartOf(v, h, u).value)
  }

  lemma HonestStarts(s: State, h: Heartbeat, at: map<Key, Pair>, lost: map<UserId, Pair>)
    requires Inv(s) && Honest(s, h, at, lost)
    ensures AllStartable(s.control, h, lost)
  {
    forall u | u in h.usage ensures StartOf(s.control, h, u).Some? && Startable(s.control, h, lost, u, StartOf(s.control, h, u).value) {
      HonestStart(s, h, at, lost, u);
    }
  }

  lemma TheStarts(v: Control, h: Heartbeat, lost: map<UserId, Pair>) returns (sums: map<UserId, Usage>)
    requires AllStartable(v, h, lost)
    ensures sums.Keys == h.usage.Keys && (forall u :: u in h.usage ==> StartOf(v, h, u) == Some(sums[u]))
    ensures forall u :: u in sums ==> Startable(v, h, lost, u, sums[u])
  {
    sums := Starts(v, h);
  }

  lemma HonestRecompute(s: State, h: Heartbeat, at: map<Key, Pair>, lost: map<UserId, Pair>, sums: map<UserId, Usage>)
    requires Inv(s) && Honest(s, h, at, lost)
    requires sums.Keys == h.usage.Keys && forall u :: u in sums ==> Startable(s.control, h, lost, u, sums[u])
    ensures Recompute(s.control, sums, h.rows) == Some(h.usage) <==> AllIssued(s.control, h.rows) && LossesAgree(s.control, h, lost)
  {
    if Recompute(s.control, sums, h.rows) == Some(h.usage) {
      RecomputeRefuses(s.control, h, lost, sums);
    } else if AllIssued(s.control, h.rows) && LossesAgree(s.control, h, lost) {
      HonestRowsFine(s, h, at, lost, sums);
      RecomputeReported(s.control, h, lost, sums);
    }
  }

  lemma VerifiedMeans(v: Control, h: Heartbeat, sums: map<UserId, Usage>)
    requires sums.Keys == h.usage.Keys && forall u :: u in h.usage ==> StartOf(v, h, u) == Some(sums[u])
    ensures Verified(v, h) <==> |h.rows| <= MAX_ROWS && Recompute(v, sums, h.rows) == Some(h.usage)
  {
    assert Starts(v, h) == sums;
  }

  /** Sending the pending rows alone makes the controller's totals equal the reported ones: an honest
      report is refused exactly when it has too many rows, when a row is under a rule the controller
      never sent, or when the two sides dropped different thousandths. */
  lemma HonestVerified(s: State, h: Heartbeat, at: map<Key, Pair>, lost: map<UserId, Pair>)
    requires Inv(s) && Honest(s, h, at, lost)
    ensures Verified(s.control, h) <==> |h.rows| <= MAX_ROWS && AllIssued(s.control, h.rows) && LossesAgree(s.control, h, lost)
  {
    HonestStarts(s, h, at, lost);
    var sums := TheStarts(s.control, h, lost);
    HonestRecompute(s, h, at, lost, sums);
    VerifiedMeans(s.control, h, sums);
  }
}
