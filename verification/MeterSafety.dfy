/** Exactness of the weighted arithmetic, and what every step of the metering exchange keeps. */
module MeterSafety {
  import opened Common
  import opened Sums
  import opened MeterModel

  // ------------------------------------------------------------------ arithmetic

  lemma DivideBy(x: nat, d: nat, q: nat)
    requires d > 0
    ensures q > x / d <==> q * d > x
  {
    if q > x / d {
      assert q * d >= (x / d + 1) * d;
    } else {
      assert q * d <= x / d * d;
    }
  }

  /** Splitting off whole thousands loses nothing: the charge is the exact quotient and remainder,
      and it fails only for a charge beyond the counter limit. */
  lemma WeightedExact(bytes: nat, rate: nat, rest: nat)
    requires bytes <= COUNTER_LIMIT && ValidRate(rate) && rest < 1000
    ensures Weighted(bytes, rate, rest).Some? <==> (bytes * rate + rest) / 1000 <= COUNTER_LIMIT
    ensures Weighted(bytes, rate, rest).Some?
            ==> Weighted(bytes, rate, rest).value == ((bytes * rate + rest) / 1000, (bytes * rate + rest) % 1000)
  {
    var whole, part := bytes / 1000, bytes % 1000;
    var fraction := part * rate + rest;
    assert bytes == whole * 1000 + part;
    assert bytes * rate == whole * rate * 1000 + part * rate by {
      assert (whole * 1000 + part) * rate == whole * 1000 * rate + part * rate;
    }
    assert bytes * rate + rest == whole * rate * 1000 + fraction;
    assert part * rate <= 999 * 100000 by { ProductBelow(part, 999, rate, 100000); }
    assert (whole * rate * 1000 + fraction) / 1000 == whole * rate + fraction / 1000;
    assert (whole * rate * 1000 + fraction) % 1000 == fraction % 1000;
    if rate > 0 {
      DivideBy(COUNTER_LIMIT - fraction / 1000, rate, whole);
    } else {
      assert whole * rate == 0;
    }
  }

  lemma ProductBelow(a: nat, x: nat, b: nat, y: nat)
    requires a <= x && b <= y
    ensures a * b <= x * y
  {
    MulLe(a, x, b);
    MulLe(b, y, x);
  }

  /** Charging in two instalments equals charging once. */
  lemma WeightedSplits(a: nat, b: nat, rate: nat, rest: nat)
    requires ValidRate(rate) && rest < 1000 && Weighted(a + b, rate, rest).Some?
    ensures Weighted(a, rate, rest).Some?
    ensures var (first, carry) := Weighted(a, rate, rest).value;
            && Weighted(b, rate, carry).Some?
            && Weighted(a + b, rate, rest).value == (first + Weighted(b, rate, carry).value.0, Weighted(b, rate, carry).value.1)
  {
    var x, y := Product(a, rate) + rest, Product(b, rate);
    WeightedParts(a, b, rate, rest, x, y);
    Thousands(x, y);
    WeightedByDivision(a, rate, rest, x);
    WeightedByDivision(b, rate, x % 1000, x % 1000 + y);
    WeightedByDivision(a + b, rate, rest, x + y);
  }

  function Product(x: nat, y: nat): nat { x * y }

  /** Whole thousands split off one after the other. */
  lemma Thousands(x: nat, y: nat)
    ensures (x + y) / 1000 == x / 1000 + (x % 1000 + y) / 1000
    ensures (x + y) % 1000 == (x % 1000 + y) % 1000
  {
  }

  lemma ProductAdds(a: nat, b: nat, rate: nat)
    ensures Product(a + b, rate) == Product(a, rate) + Product(b, rate)
  {
  }

  lemma WeightedParts(a: nat, b: nat, rate: nat, rest: nat, x: nat, y: nat)
    requires ValidRate(rate) && rest < 1000 && Weighted(a + b, rate, rest).Some?
    requires x == Product(a, rate) + rest && y == Product(b, rate)
    ensures a + b <= COUNTER_LIMIT
    ensures Product(a + b, rate) + rest == x + y
    ensures (x + y) / 1000 <= COUNTER_LIMIT
  {
    ProductAdds(a, b, rate);
    WeightedExact(a + b, rate, rest);
  }

  lemma WeightedByDivision(bytes: nat, rate: nat, rest: nat, n: nat)
    requires bytes <= COUNTER_LIMIT && ValidRate(rate) && rest < 1000
    requires n == Product(bytes, rate) + rest && n / 1000 <= COUNTER_LIMIT
    ensures Weighted(bytes, rate, rest) == Some((n / 1000, n % 1000))
  {
    WeightedExact(bytes, rate, rest);
  }

  /** A charge moves both readings of a total by exactly the charged amount, and fails only at a limit. */
  lemma ChargeExact(t: Total, bytes: nat, rate: nat)
    requires ValidRate(rate) && t.rest < 1000
    ensures Charge(t, bytes, rate).Some?
            <==> t.raw + bytes <= COUNTER_LIMIT && (1000 * t.quota + t.rest + bytes * rate) / 1000 <= COUNTER_LIMIT
    ensures Charge(t, bytes, rate).Some? ==>
              var n := Charge(t, bytes, rate).value;
              && n.raw == t.raw + bytes && 1000 * n.quota + n.rest == 1000 * t.quota + t.rest + bytes * rate
              && n.raw <= COUNTER_LIMIT && n.quota <= COUNTER_LIMIT && n.rest < 1000
  {
    assert (1000 * t.quota + t.rest + bytes * rate) / 1000 == t.quota + (bytes * rate + t.rest) / 1000;
    if t.raw + bytes <= COUNTER_LIMIT {
      WeightedExact(bytes, rate, t.rest);
    }
  }

  // ------------------------------------------------------------------ invariant

  ghost predicate Below(a: map<Key, Pair>, b: map<Key, Pair>)
  {
    forall k :: k in a ==> k in b && Within(a[k], b[k])
  }

  ghost predicate NoRows(rows: map<Key, Pair>, u: UserId)
  {
    forall k :: k in rows ==> k.user != u
  }

  /** A rule the controller sent, or the rule of a member's package. */
  ghost predicate RuleKnown(rules: set<(NodeId, Rule)>, n: NodeId, r: Rule)
  {
    ValidRate(r.rate) && ((n, r) in rules <==> !r.package)
  }

  ghost predicate RulesFine(rules: set<(NodeId, Rule)>)
  {
    forall p :: p in rules ==> ValidRate(p.1.rate) && !p.1.package
  }

  ghost predicate KeyFine(c: Child, v: Control, k: Key)
  {
    k.user in c.meters && (k.user, k.period) in v.periods && RuleKnown(v.rules, k.node, k.rule)
  }

  ghost predicate MemberFine(c: Child, v: Control, u: UserId)
    requires u in c.meters && u in c.base
  {
    && Accounted(c.meters[u], c.base[u], c.rows, LossOf(c.lost, u), u)
    && c.base[u].up <= COUNTER_LIMIT && c.base[u].down <= COUNTER_LIMIT
    && (u, c.meters[u].period) in v.periods
  }

  ghost predicate ChildFine(c: Child, v: Control)
  {
    && c.base.Keys == c.meters.Keys
    && RulesFine(v.rules)
    && c.policy <= v.rules
    && (forall k :: k in c.rows ==> KeyFine(c, v, k))
    && (forall u :: u in c.meters ==> MemberFine(c, v, u))
    && (forall u :: u in c.lost ==> u in c.meters)
  }

  /** What the controller holds of member `u`. */
  ghost predicate Held(c: Child, v: Control, u: UserId)
  {
    if Metered(v, u) then
      && u in c.base && u in v.baseline && v.baseline[u] == c.base[u]
      && Accounted(v.usage[u], c.base[u], v.rows, LossOf(v.lost, u), u)
    else
      && u !in v.baseline && NoRows(v.rows, u) && LossOf(v.lost, u) == Pair(0, 0)
      && var base := if u in c.base then c.base[u] else Pair(0, 0);
         Known(v.usage, u).up.raw <= base.up && Known(v.usage, u).down.raw <= base.down
  }

  /** A report describes the child as it was when it asked. */
  ghost predicate Honest(s: State, h: Heartbeat, at: map<Key, Pair>, lost: map<UserId, Pair>)
  {
    && Below(s.control.rows, at) && Below(at, s.child.rows)
    && Listing(h.rows, at, s.child.acks)
    && h.usage.Keys == h.baseline.Keys
    && (forall u :: u in h.usage ==> ReportFine(s, h, at, lost, u))
    && (forall k :: k in at ==> k.user in h.usage)
    && (forall u :: Metered(s.control, u) ==> u in h.usage)
  }

  ghost predicate ReportFine(s: State, h: Heartbeat, at: map<Key, Pair>, lost: map<UserId, Pair>, u: UserId)
    requires u in h.usage && h.usage.Keys == h.baseline.Keys
  {
    && u in s.child.base && h.baseline[u] == s.child.base[u]
    && Accounted(h.usage[u], h.baseline[u], at, LossOf(lost, u), u)
    && (u, h.usage[u].period) in s.control.periods
  }

  ghost predicate LinkFine(s: State)
  {
    match s.link
    case Idle => true
    case Asked(h, at, lost) => Honest(s, h, at, lost)
    case Answered(rows, members, nodes) =>
      && Distinct(rows) && (forall i :: 0 <= i < |rows| ==> AnswerFine(s, rows[i]))
      && PolicyFine(s.control, members, nodes)
  }

  /** An answered row is booked by the controller and covers what was acknowledged before. */
  ghost predicate AnswerFine(s: State, row: Row)
  {
    && row.key in s.control.rows && Within(row.bytes, s.control.rows[row.key])
    && (row.key in s.child.acks ==> Within(s.child.acks[row.key], row.bytes))
  }

  /** A policy on its way was noted by the controller. */
  ghost predicate PolicyFine(v: Control, members: map<UserId, Period>, nodes: map<NodeId, Rule>)
  {
    && (forall u :: u in members ==> (u, members[u]) in v.periods)
    && (forall n :: n in nodes ==> (n, nodes[n]) in v.rules)
  }

  ghost predicate Inv(s: State)
  {
    && ChildFine(s.child, s.control)
    && Below(s.child.acks, s.control.rows) && Below(s.control.rows, s.child.rows)
    && (forall u :: Held(s.child, s.control, u))
    && LinkFine(s)
  }

  // ------------------------------------------------------------------ tallies

  lemma TallyNoRows(rows: map<Key, Pair>, u: UserId, up: bool, weighted: bool)
    requires NoRows(rows, u)
    ensures Tally(rows, u, up, weighted) == 0
  {
    SumSubset(rows.Keys, {}, Shares(rows, u, up, weighted));
  }

  /** Member `u` sees exactly its own growth. */
  lemma TallyAdd(rows: map<Key, Pair>, k: Key, grown: Pair, u: UserId, up: bool, weighted: bool)
    ensures Tally(rows[k := grown], u, up, weighted)
            == Tally(rows, u, up, weighted) - Share(k, RowOr(rows, k), u, up, weighted) + Share(k, grown, u, up, weighted)
  {
    var next := rows[k := grown];
    var f, g := Shares(rows, u, up, weighted), Shares(next, u, up, weighted);
    if k in rows {
      assert next.Keys == rows.Keys;
      SumChangeOne(rows.Keys, f, g, k);
    } else {
      assert next.Keys == rows.Keys + {k};
      SumInsert(rows.Keys, g, k);
      SumCongruence(rows.Keys, f, g);
    }
  }

  /** Rows outside the table count as zero. */
  lemma TallyWiden(rows: map<Key, Pair>, keys: set<Key>, u: UserId, up: bool, weighted: bool)
    requires rows.Keys <= keys
    ensures Tally(rows, u, up, weighted) == Sum(keys, Shares(rows, u, up, weighted))
  {
    SumSubset(keys, rows.Keys, Shares(rows, u, up, weighted));
  }

  // ------------------------------------------------------------------ child steps

  lemma GrowShare(k: Key, was: Pair, up: bool, bytes: nat, v: bool, weighted: bool)
    ensures Share(k, AddTo(was, up, bytes), k.user, v, weighted)
            == Share(k, was, k.user, v, weighted) + (if v == up then bytes * (if weighted then k.rule.rate else 1) else 0)
  {
    if v == up {
      var w := if weighted then k.rule.rate else 1;
      assert (Direction(was, v) + bytes) * w == Direction(was, v) * w + bytes * w;
    }
  }

  /** `t` is the total of direction `up` after a charge of `bytes`. */
  lemma GrowMeasure(x: Usage, base: Pair, rows: map<Key, Pair>, lost: Pair, k: Key, up: bool, bytes: nat, t: Total, v: bool, weighted: bool)
    requires AccountedIn(x, base, rows, lost, k.user, v, weighted)
    requires t.raw == TotalOf(x, up).raw + bytes
    requires 1000 * t.quota + t.rest == 1000 * TotalOf(x, up).quota + TotalOf(x, up).rest + bytes * k.rule.rate
    ensures AccountedIn(WithTotal(x, up, t), base, rows[k := AddTo(RowOr(rows, k), up, bytes)], lost, k.user, v, weighted)
  {
    TallyAdd(rows, k, AddTo(RowOr(rows, k), up, bytes), k.user, v, weighted);
    GrowShare(k, RowOr(rows, k), up, bytes, v, weighted);
  }

  lemma Grow(x: Usage, base: Pair, rows: map<Key, Pair>, lost: Pair, k: Key, up: bool, bytes: nat)
    requires Accounted(x, base, rows, lost, k.user) && ValidRate(k.rule.rate)
    requires Charge(TotalOf(x, up), bytes, k.rule.rate).Some?
    ensures Accounted(WithTotal(x, up, Charge(TotalOf(x, up), bytes, k.rule.rate).value), base,
                      rows[k := AddTo(RowOr(rows, k), up, bytes)], lost, k.user)
  {
    ChargeExact(TotalOf(x, up), bytes, k.rule.rate);
    var t := Charge(TotalOf(x, up), bytes, k.rule.rate).value;
    GrowMeasure(x, base, rows, lost, k, up, bytes, t, true, true);
    GrowMeasure(x, base, rows, lost, k, up, bytes, t, true, false);
    GrowMeasure(x, base, rows, lost, k, up, bytes, t, false, true);
    GrowMeasure(x, base, rows, lost, k, up, bytes, t, false, false);
  }

  /** Another member's row. */
  lemma OthersUntouched(x: Usage, base: Pair, rows: map<Key, Pair>, lost: Pair, k: Key, grown: Pair, u: UserId)
    requires k.user != u && Accounted(x, base, rows, lost, u)
    ensures Accounted(x, base, rows[k := grown], lost, u)
  {
    TallyAdd(rows, k, grown, u, true, true);
    TallyAdd(rows, k, grown, u, true, false);
    TallyAdd(rows, k, grown, u, false, true);
    TallyAdd(rows, k, grown, u, false, false);
  }

  lemma CollectAccount(c: Child, k: Key, up: bool, bytes: nat, u: UserId)
    requires k.user in c.meters && ValidRate(k.rule.rate) && u in c.meters && u in c.base
    requires Accounted(c.meters[u], c.base[u], c.rows, LossOf(c.lost, u), u)
    ensures var d := CollectAt(c, k, up, bytes); Accounted(d.meters[u], d.base[u], d.rows, LossOf(d.lost, u), u)
  {
    if Charge(TotalOf(c.meters[k.user], up), bytes, k.rule.rate).Some? {
      if u != k.user {
        OthersUntouched(c.meters[u], c.base[u], c.rows, LossOf(c.lost, u), k, AddTo(RowOr(c.rows, k), up, bytes), u);
      } else {
        Grow(c.meters[u], c.base[u], c.rows, LossOf(c.lost, u), k, up, bytes);
      }
    }
  }

  lemma CollectFrame(c: Child, k: Key, up: bool, bytes: nat)
    requires k.user in c.meters
    ensures var d := CollectAt(c, k, up, bytes);
            && d.base == c.base && d.acks == c.acks && d.policy == c.policy && d.lost == c.lost
            && d.meters.Keys == c.meters.Keys && (forall u :: u in c.meters ==> d.meters[u].period == c.meters[u].period)
            && Below(c.rows, d.rows) && (forall j :: j in d.rows ==> j in c.rows || j == k)
  {
  }

  lemma CollectKeepsChild(c: Child, k: Key, up: bool, bytes: nat, v: Control)
    requires ChildFine(c, v) && KeyFine(c, v, k)
    ensures ChildFine(CollectAt(c, k, up, bytes), v)
  {
    CollectFrame(c, k, up, bytes);
    var d := CollectAt(c, k, up, bytes);
    forall j | j in d.rows ensures KeyFine(d, v, j) {
      assert KeyFine(c, v, j);
    }
    forall u | u in d.meters ensures MemberFine(d, v, u) {
      assert MemberFine(c, v, u);
      CollectAccount(c, k, up, bytes, u);
    }
  }

  lemma BelowTrans(a: map<Key, Pair>, b: map<Key, Pair>, c: map<Key, Pair>)
    requires Below(a, b) && Below(b, c)
    ensures Below(a, c)
  {
  }

  lemma HeldFrame(c: Child, d: Child, v: Control)
    requires c.base == d.base && forall u :: Held(c, v, u)
    ensures forall u :: Held(d, v, u)
  {
    forall u ensures Held(d, v, u) {
      assert Held(c, v, u);
    }
  }

  /** A report in flight stays honest while the child's table grows and its members stay. */
  lemma HonestFrame(s: State, t: State, h: Heartbeat, at: map<Key, Pair>, lost: map<UserId, Pair>)
    requires Honest(s, h, at, lost)
    requires t.control == s.control && t.child.acks == s.child.acks && Below(s.child.rows, t.child.rows)
    requires forall u :: u in s.child.base ==> u in t.child.base && t.child.base[u] == s.child.base[u]
    ensures Honest(t, h, at, lost)
  {
    BelowTrans(at, s.child.rows, t.child.rows);
    forall u | u in h.usage ensures ReportFine(t, h, at, lost, u) {
      assert ReportFine(s, h, at, lost, u);
    }
  }

  lemma CollectedKey(s: State, k: Key, up: bool, bytes: nat)
    requires ChildFine(s.child, s.control) && Allowed(s, Collect(k, up, bytes))
    ensures KeyFine(s.child, s.control, k)
  {
    assert MemberFine(s.child, s.control, k.user);
    assert RulesFine(s.control.rules);
    assert (k.node, k.rule) in s.control.rules ==> ValidRate((k.node, k.rule).1.rate) && !(k.node, k.rule).1.package;
  }

  lemma CollectKeepsInv(s: State, k: Key, up: bool, bytes: nat)
    requires Inv(s) && Allowed(s, Collect(k, up, bytes))
    ensures Inv(Step(s, Collect(k, up, bytes)))
  {
    CollectedKey(s, k, up, bytes);
    CollectKeepsChild(s.child, k, up, bytes, s.control);
    CollectFrame(s.child, k, up, bytes);
    var t := Step(s, Collect(k, up, bytes));
    BelowTrans(s.control.rows, s.child.rows, t.child.rows);
    HeldFrame(s.child, t.child, s.control);
    if s.link.Asked? {
      HonestFrame(s, t, s.link.report, s.link.at, s.link.lost);
    } else if s.link.Answered? {
      forall i | 0 <= i < |s.link.rows| ensures AnswerFine(t, s.link.rows[i]) {
        assert AnswerFine(s, s.link.rows[i]);
      }
    }
  }

  // ------------------------------------------------------------------ policies on the child

  lemma FromBaseAccounted(rows: map<Key, Pair>, u: UserId, base: Pair, p: Period)
    requires NoRows(rows, u) && base.up <= COUNTER_LIMIT && base.down <= COUNTER_LIMIT
    ensures Accounted(FromBase(base, p), base, rows, Pair(0, 0), u)
  {
    TallyNoRows(rows, u, true, true);
    TallyNoRows(rows, u, true, false);
    TallyNoRows(rows, u, false, true);
    TallyNoRows(rows, u, false, false);
  }

  /** A turn moves the left-over thousandths from the total to the loss. */
  lemma TurnAccounted(x: Usage, base: Pair, rows: map<Key, Pair>, lost: Pair, u: UserId, p: Period)
    requires Accounted(x, base, rows, lost, u)
    ensures Accounted(Turn(x, p), base, rows, Pair(lost.up + Dropped(x, p).up, lost.down + Dropped(x, p).down), u)
  {
  }

  lemma AppliedAt(c: Child, members: map<UserId, Period>, u: UserId)
    ensures if u in members then
              && u in AppliedMeters(c, members) && AppliedMeters(c, members)[u] == Placed(c, u, members[u])
              && LossOf(AppliedLosses(c, members), u) == LostBy(c, u, members[u])
            else
              && (u in AppliedMeters(c, members) <==> u in c.meters)
              && (u in c.meters ==> AppliedMeters(c, members)[u] == c.meters[u])
              && LossOf(AppliedLosses(c, members), u) == LossOf(c.lost, u)
  {
  }

  lemma AppliedBaseAt(c: Child, members: map<UserId, Period>, u: UserId)
    ensures u in AppliedBase(c, members) <==> u in members || u in c.base
    ensures u in AppliedBase(c, members) ==> AppliedBase(c, members)[u] == if u in c.base then c.base[u] else Pair(0, 0)
  {
  }

  lemma PlacedAccounted(c: Child, v: Control, members: map<UserId, Period>, u: UserId)
    requires u in members && u in c.meters && u in c.base && MemberFine(c, v, u)
    ensures Accounted(Placed(c, u, members[u]), c.base[u], c.rows, LostBy(c, u, members[u]), u)
  {
    TurnAccounted(c.meters[u], c.base[u], c.rows, LossOf(c.lost, u), u, members[u]);
  }

  lemma JoinedAccounted(c: Child, v: Control, members: map<UserId, Period>, u: UserId)
    requires u in members && u !in c.meters && u !in c.lost && forall k :: k in c.rows ==> KeyFine(c, v, k)
    ensures Accounted(Placed(c, u, members[u]), Pair(0, 0), c.rows, LostBy(c, u, members[u]), u)
  {
    forall k | k in c.rows ensures k.user != u {
      assert KeyFine(c, v, k);
    }
    FromBaseAccounted(c.rows, u, Pair(0, 0), members[u]);
  }

  lemma ApplyKeepsMember(c: Child, v: Control, members: map<UserId, Period>, nodes: map<NodeId, Rule>, u: UserId)
    requires ChildFine(c, v) && PolicyFine(v, members, nodes) && (u in c.meters || u in members)
    ensures var d := Apply(c, members, nodes); u in d.meters && u in d.base && MemberFine(d, v, u)
  {
    AppliedAt(c, members, u);
    AppliedBaseAt(c, members, u);
    if u !in c.meters {
      JoinedAccounted(c, v, members, u);
    } else {
      assert MemberFine(c, v, u);
      if u in members {
        PlacedAccounted(c, v, members, u);
      }
    }
  }

  lemma ApplyFrame(c: Child, members: map<UserId, Period>, nodes: map<NodeId, Rule>)
    requires c.base.Keys == c.meters.Keys
    ensures var d := Apply(c, members, nodes);
            && d.rows == c.rows && d.acks == c.acks && d.policy == c.policy + nodes.Items
            && d.meters.Keys == c.meters.Keys + members.Keys && d.base.Keys == d.meters.Keys && d.lost.Keys == c.lost.Keys + members.Keys
            && (forall u :: u in c.base ==> u in d.base && d.base[u] == c.base[u])
  {
    var d := Apply(c, members, nodes);
    assert d.base.Keys == c.meters.Keys + members.Keys;
    forall u | u in c.base ensures u in d.base && d.base[u] == c.base[u] {
      AppliedBaseAt(c, members, u);
    }
  }

  lemma KeysStayFine(c: Child, d: Child, v: Control, w: Control)
    requires forall k :: k in c.rows ==> KeyFine(c, v, k)
    requires d.rows == c.rows && c.meters.Keys <= d.meters.Keys
    requires v.rules == w.rules && v.periods == w.periods
    ensures forall k :: k in d.rows ==> KeyFine(d, w, k)
  {
    forall k | k in d.rows ensures KeyFine(d, w, k) {
      assert KeyFine(c, v, k);
    }
  }

  lemma ApplyKeepsChild(c: Child, v: Control, members: map<UserId, Period>, nodes: map<NodeId, Rule>)
    requires ChildFine(c, v) && PolicyFine(v, members, nodes)
    ensures ChildFine(Apply(c, members, nodes), v)
  {
    ApplyFrame(c, members, nodes);
    var d := Apply(c, members, nodes);
    KeysStayFine(c, d, v, v);
    MembersFineAfter(c, d, v, members, nodes);
    PolicyKept(c, d, v, members, nodes);
  }

  lemma MembersFineAfter(c: Child, d: Child, v: Control, members: map<UserId, Period>, nodes: map<NodeId, Rule>)
    requires ChildFine(c, v) && PolicyFine(v, members, nodes) && d == Apply(c, members, nodes)
    requires d.meters.Keys == c.meters.Keys + members.Keys && d.base.Keys == d.meters.Keys
    ensures forall u :: u in d.meters ==> MemberFine(d, v, u)
  {
    forall u | u in d.meters ensures MemberFine(d, v, u) {
      ApplyKeepsMember(c, v, members, nodes, u);
    }
  }

  lemma PolicyKept(c: Child, d: Child, v: Control, members: map<UserId, Period>, nodes: map<NodeId, Rule>)
    requires PolicyFine(v, members, nodes) && d.policy == c.policy + nodes.Items && c.policy <= v.rules
    ensures d.policy <= v.rules
  {
    forall p | p in nodes.Items ensures p in v.rules {
      assert p.0 in nodes && nodes[p.0] == p.1;
    }
  }

  lemma ApplyKeepsHeld(c: Child, v: Control, members: map<UserId, Period>, nodes: map<NodeId, Rule>, u: UserId)
    requires Held(c, v, u)
    ensures Held(Apply(c, members, nodes), v, u)
  {
    AppliedBaseAt(c, members, u);
  }

  // ------------------------------------------------------------------ asking

  lemma AskKeepsInv(s: State, rows: seq<Row>, envelope: nat)
    requires Inv(s) && Allowed(s, Ask(rows, envelope)) && s.link.Idle?
    ensures Inv(Step(s, Ask(rows, envelope)))
  {
    var t := Step(s, Ask(rows, envelope));
    if t.link.Asked? {
      HeldFrame(s.child, t.child, s.control);
      var h := Report(s.child, rows);
      forall u | u in h.usage ensures ReportFine(t, h, s.child.rows, s.child.lost, u) {
        assert MemberFine(s.child, s.control, u);
      }
      forall u | Metered(t.control, u) ensures u in h.usage {
        assert Held(s.child, s.control, u);
      }
      forall k | k in s.child.rows ensures k.user in h.usage {
        assert KeyFine(s.child, s.control, k);
      }
    }
  }
}
