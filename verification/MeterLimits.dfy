/** When the metering exchange stops for good, and runs that get there. */
module MeterLimits {
  import opened Common
  import opened Sums
  import opened MeterModel
  import opened MeterSafety
  import opened MeterExchange
  import opened MeterTheorems

  // ------------------------------------------------------------------ turning the period

  /** What the child metered and the controller has not booked is a whole number of weighted bytes. */
  ghost predicate UnbookedWhole(c: Child, v: Control, u: UserId)
  {
    Unbooked(c, v, u, true) % 1000 == 0 && Unbooked(c, v, u, false) % 1000 == 0
  }

  predicate Whole(x: Usage) { x.up.rest == 0 && x.down.rest == 0 }
  predicate SameRests(x: Usage, y: Usage) { x.up.rest == y.up.rest && x.down.rest == y.down.rest }

  lemma RestsAgree(x: Usage, y: Usage, base: Pair, rows: map<Key, Pair>, was: map<Key, Pair>, loss: Pair, u: UserId, up: bool)
    requires Accounted(x, base, rows, loss, u) && Accounted(y, base, was, loss, u)
    ensures TotalOf(x, up).rest == TotalOf(y, up).rest <==> (Tally(rows, u, up, true) - Tally(was, u, up, true)) % 1000 == 0
  {
    assert AccountedIn(x, base, rows, loss, u, up, true) && AccountedIn(y, base, was, loss, u, up, true);
    SameRest(TotalOf(x, up).quota, TotalOf(x, up).rest, TotalOf(y, up).quota, TotalOf(y, up).rest);
  }

  lemma SameRest(q: int, r: nat, p: int, o: nat)
    requires r < 1000 && o < 1000
    ensures r == o <==> (1000 * q + r - (1000 * p + o)) % 1000 == 0
  {
  }

  /** The losses after a policy moved a member to a new period. */
  lemma TurnResult(c: Child, v: Control, members: map<UserId, Period>, nodes: map<NodeId, Rule>, d: Child, u: UserId, booked: Usage)
    requires u in c.meters && u in members && members[u] != c.meters[u].period && d == Apply(c, members, nodes)
    requires LossOf(c.lost, u) == LossOf(v.lost, u)
    requires if Metered(v, u) then booked == v.usage[u] && booked.period != members[u] else Whole(booked)
    ensures u in d.meters
    ensures LossAgrees(d, v, u) <==> SameRests(c.meters[u], booked)
  {
    AppliedAt(c, members, u);
    assert LossOf(d.lost, u) == MoreLost(v.lost, u, Dropped(c.meters[u], members[u]));
    assert Forgets(v, u, members[u]) == Pair(booked.up.rest, booked.down.rest);
  }

  lemma BookedSoFar(c: Child, v: Control, u: UserId) returns (booked: Usage)
    requires u in c.base && Held(c, v, u) && c.base[u].up <= COUNTER_LIMIT && c.base[u].down <= COUNTER_LIMIT
    ensures Accounted(booked, c.base[u], v.rows, LossOf(v.lost, u), u)
    ensures if Metered(v, u) then booked == v.usage[u] else Whole(booked)
  {
    if Metered(v, u) {
      booked := v.usage[u];
    } else {
      booked := FromBase(c.base[u], "");
      FromBaseAccounted(v.rows, u, c.base[u], "");
    }
  }

  lemma RestsOfMember(c: Child, v: Control, u: UserId) returns (booked: Usage)
    requires u in c.meters && u in c.base && MemberFine(c, v, u) && Held(c, v, u) && LossOf(c.lost, u) == LossOf(v.lost, u)
    ensures if Metered(v, u) then booked == v.usage[u] else Whole(booked)
    ensures SameRests(c.meters[u], booked) <==> UnbookedWhole(c, v, u)
  {
    booked := BookedSoFar(c, v, u);
    RestsAgree(c.meters[u], booked, c.base[u], c.rows, v.rows, LossOf(c.lost, u), u, true);
    RestsAgree(c.meters[u], booked, c.base[u], c.rows, v.rows, LossOf(c.lost, u), u, false);
  }

  lemma ReachableRests(s: State, es: seq<Event>, t: State, u: UserId) returns (booked: Usage)
    requires Init(s) && Reaches(s, es, t) && u in t.child.meters && LossOf(t.child.lost, u) == LossOf(t.control.lost, u)
    ensures if Metered(t.control, u) then booked == t.control.usage[u] else Whole(booked)
    ensures SameRests(t.child.meters[u], booked) <==> UnbookedWhole(t.child, t.control, u)
  {
    ReachableInv(s, es, t);
    assert MemberFine(t.child, t.control, u) && Held(t.child, t.control, u);
    booked := RestsOfMember(t.child, t.control, u);
  }

  lemma Arrives(s: State, es: seq<Event>, t: State) returns (c: Child)
    requires Init(s) && Reaches(s, es, t) && t.link.Answered?
    ensures c == t.child.(acks := c.acks) && Step(t, Deliver(true)) == State(Apply(c, t.link.members, t.link.nodes), t.control, Idle)
  {
    ReachableInv(s, es, t);
    DeliverResult(t, true);
    c := t.child.(acks := Table(t.child.acks, t.link.rows));
  }

  /** As long as the sides agree, a policy that moves a member to a new period keeps them in agreement
      exactly when what was metered since the last booking is a whole number of weighted bytes. */
  lemma TurnAgreesExactlyWhen(s: State, es: seq<Event>, t: State, u: UserId, d: Child)
    requires Init(s) && Reaches(s, es, t) && LossOf(t.child.lost, u) == LossOf(t.control.lost, u)
    requires t.link.Answered? && u in t.link.members && d == Step(t, Deliver(true)).child
    requires u in t.child.meters && t.child.meters[u].period != t.link.members[u]
    requires Metered(t.control, u) ==> t.control.usage[u].period != t.link.members[u]
    ensures u in d.meters
    ensures LossAgrees(d, t.control, u) <==> UnbookedWhole(t.child, t.control, u)
  {
    var booked := ReachableRests(s, es, t, u);
    var c := Arrives(s, es, t);
    TurnResult(c, t.control, t.link.members, t.link.nodes, d, u, booked);
  }

  // ------------------------------------------------------------------ whole rates

  ghost predicate AllWhole(usage: map<UserId, Usage>) { forall u :: u in usage && usage[u].metered ==> Whole(usage[u]) }

  ghost predicate NoLoss(lost: map<UserId, Pair>) { forall u :: u in lost ==> lost[u] == Pair(0, 0) }

  ghost predicate WholeRates(nodes: map<NodeId, Rule>) { forall n :: n in nodes ==> nodes[n].rate % 1000 == 0 }

  ghost predicate WholeEvent(e: Event)
  {
    (e.Serve? ==> WholeRates(e.nodes)) && (e.Collect? ==> e.k.rule.rate % 1000 == 0)
  }

  ghost predicate WholeState(s: State)
  {
    && AllWhole(s.child.meters) && AllWhole(s.control.usage) && NoLoss(s.child.lost) && NoLoss(s.control.lost)
    && (s.link.Asked? ==> AllWhole(s.link.report.usage))
  }

  lemma ThousandTimes(a: nat, b: nat)
    ensures a * (1000 * b) % 1000 == 0
  {
    assert a * (1000 * b) == 1000 * (a * b);
  }

  lemma WholeCharge(t: Total, bytes: nat, rate: nat)
    requires t.rest == 0 && rate % 1000 == 0 && Charge(t, bytes, rate).Some?
    ensures Charge(t, bytes, rate).value.rest == 0
  {
    ThousandTimes(bytes % 1000, rate / 1000);
  }

  lemma WholeCollect(c: Child, k: Key, up: bool, bytes: nat)
    requires AllWhole(c.meters) && k.user in c.meters && c.meters[k.user].metered && k.rule.rate % 1000 == 0
    ensures AllWhole(CollectAt(c, k, up, bytes).meters)
  {
    if Charge(TotalOf(c.meters[k.user], up), bytes, k.rule.rate).Some? {
      WholeCharge(TotalOf(c.meters[k.user], up), bytes, k.rule.rate);
    }
  }

  lemma WholeApply(c: Child, members: map<UserId, Period>, nodes: map<NodeId, Rule>)
    requires AllWhole(c.meters) && NoLoss(c.lost) && forall u :: u in c.meters ==> c.meters[u].metered
    ensures AllWhole(Apply(c, members, nodes).meters) && NoLoss(Apply(c, members, nodes).lost)
  {
    var meters, lost := AppliedMeters(c, members), AppliedLosses(c, members);
    forall u | u in meters ensures Whole(meters[u]) {
      AppliedAt(c, members, u);
    }
    forall u | u in lost ensures lost[u] == Pair(0, 0) {
      AppliedAt(c, members, u);
    }
  }

  lemma WholeBook(v: Control, h: Heartbeat)
    requires AllWhole(v.usage) && NoLoss(v.lost) && AllWhole(h.usage)
    ensures AllWhole(v.usage + h.usage) && NoLoss(BookedLosses(v, h))
  {
    forall u | u in h.usage ensures LossAfter(v, h, u) == Pair(0, 0) {
      assert Forgets(v, u, h.usage[u].period) == Pair(0, 0);
    }
  }

  lemma WholeServe(s: State, e: Event)
    requires WholeState(s) && e.Serve?
    ensures WholeState(Step(s, e))
  {
    if s.link.Asked? {
      WholeBook(s.control, s.link.report);
    }
  }

  lemma WholeDeliver(s: State, applied: bool)
    requires WholeState(s) && forall u :: u in s.child.meters ==> s.child.meters[u].metered
    ensures WholeState(Step(s, Deliver(applied)))
  {
    if s.link.Answered? && Acknowledge(s.child.acks, s.child.rows, s.link.rows).Some? {
      WholeApply(s.child.(acks := Acknowledge(s.child.acks, s.child.rows, s.link.rows).value), s.link.members, s.link.nodes);
    }
  }

  lemma WholeStep(s: State, e: Event)
    requires Inv(s) && Allowed(s, e) && WholeState(s) && WholeEvent(e)
    ensures WholeState(Step(s, e))
  {
    forall u | u in s.child.meters ensures s.child.meters[u].metered {
      assert MemberFine(s.child, s.control, u);
    }
    match e
    case Collect(k, up, bytes) => WholeCollect(s.child, k, up, bytes);
    case Serve(_, _, _, _) => WholeServe(s, e);
    case Deliver(applied) => WholeDeliver(s, applied);
    case _ =>
  }

  lemma {:induction false} WholeRun(s: State, es: seq<Event>, t: State)
    requires Inv(s) && WholeState(s) && Reaches(s, es, t) && forall i :: 0 <= i < |es| ==> WholeEvent(es[i])
    ensures WholeState(t)
    decreases |es|
  {
    if es != [] {
      assert WholeEvent(es[0]);
      WholeStep(s, es[0]);
      StepKeepsInv(s, es[0]);
      WholeRun(Step(s, es[0]), es[1..], t);
    }
  }

  /** Where every rate is a whole number of thousands, turns of the period drop nothing, so the sides
      always agree. */
  lemma WholeRatesAgree(s: State, es: seq<Event>, t: State, u: UserId)
    requires Init(s) && Reaches(s, es, t) && u in t.child.meters
    requires forall i :: 0 <= i < |es| ==> WholeEvent(es[i])
    ensures LossAgrees(t.child, t.control, u)
  {
    forall w | w in s.child.meters ensures Whole(s.child.meters[w]) {
      assert LegacyMember(s, w);
    }
    InitIsInv(s);
    WholeRun(s, es, t);
  }

  // ------------------------------------------------------------------ stopped for good

  /** Not even the shortest report of the child can be booked; see BookableIsReportable for the terms. */
  ghost predicate Stuck(c: Child, v: Control) { !Reportable(c, v, LeastEnvelope(|c.meters|)) }

  ghost predicate Blocked(s: State)
  {
    Stuck(s.child, s.control) && (s.link.Idle? || (s.link.Asked? && !Accepted(s.control, s.link.report)))
  }

  lemma {:induction false} DigitsMonotone(a: nat, b: nat)
    requires a <= b
    ensures Digits(a) <= Digits(b)
    decreases b
  {
    if b >= 10 && a >= 10 {
      DigitsMonotone(a / 10, b / 10);
    }
  }

  lemma WeightGrows(a: map<Key, Pair>, b: map<Key, Pair>, k: Key)
    requires Within(RowOr(a, k), RowOr(b, k))
    ensures Weight(a)(k) <= Weight(b)(k)
  {
    DigitsMonotone(RowOr(a, k).up, RowOr(b, k).up);
    DigitsMonotone(RowOr(a, k).down, RowOr(b, k).down);
  }

  /** What is pending only grows while nothing is acknowledged. */
  lemma BacklogGrows(c: Child, d: Child)
    requires c.acks == d.acks && Below(c.rows, d.rows)
    ensures PendingKeys(c) <= PendingKeys(d) && PendingBytes(c) <= PendingBytes(d)
  {
    assert PendingKeys(c) <= PendingKeys(d);
    forall k | k in PendingKeys(c) ensures Weight(c.rows)(k) <= Weight(d.rows)(k) {
      WeightGrows(c.rows, d.rows, k);
    }
    SumMonotone(PendingKeys(c), Weight(c.rows), Weight(d.rows));
    SumSuperset(PendingKeys(c), PendingKeys(d), Weight(d.rows));
    SumNonNegative(PendingKeys(d), Weight(d.rows));
  }

  /** `d` is `c` with more metered. */
  ghost predicate Grows(c: Child, d: Child)
  {
    && d.acks == c.acks && d.lost == c.lost && d.meters.Keys == c.meters.Keys && Below(c.rows, d.rows)
    && forall u :: u in c.meters ==> d.meters[u].period == c.meters[u].period
  }

  lemma GrownReportable(c: Child, d: Child, v: Control, envelope: nat)
    requires Grows(c, d) && Reportable(d, v, envelope)
    ensures Reportable(c, v, envelope)
  {
    BacklogGrows(c, d);
    forall j | Pending(c.rows, c.acks, j) ensures !j.rule.package {
      assert j in PendingKeys(d);
    }
  }

  lemma CollectStaysStuck(c: Child, v: Control, k: Key, up: bool, bytes: nat)
    requires k.user in c.meters && Stuck(c, v)
    ensures Stuck(CollectAt(c, k, up, bytes), v)
  {
    var d := CollectAt(c, k, up, bytes);
    CollectFrame(c, k, up, bytes);
    if !Stuck(d, v) {
      GrownReportable(c, d, v, LeastEnvelope(|c.meters|));
    }
  }

  lemma BlockedAsk(s: State, rows: seq<Row>, envelope: nat)
    requires Inv(s) && Blocked(s) && s.link.Idle? && Allowed(s, Ask(rows, envelope))
    ensures Blocked(Step(s, Ask(rows, envelope)))
  {
    AskedAccepted(s, rows, envelope);
    assert !Reportable(s.child, s.control, envelope);
  }

  lemma BlockedCollect(s: State, k: Key, up: bool, bytes: nat)
    requires Blocked(s) && k.user in s.child.meters
    ensures Blocked(s.(child := CollectAt(s.child, k, up, bytes))) && CollectAt(s.child, k, up, bytes).acks == s.child.acks
  {
    CollectStaysStuck(s.child, s.control, k, up, bytes);
    CollectFrame(s.child, k, up, bytes);
  }

  lemma BlockedStep(s: State, e: Event)
    requires Inv(s) && Blocked(s) && Allowed(s, e)
    ensures Blocked(Step(s, e)) && Step(s, e).control == s.control && Step(s, e).child.acks == s.child.acks
  {
    match e
    case Collect(k, up, bytes) => BlockedCollect(s, k, up, bytes);
    case Ask(rows, envelope) => if s.link.Idle? { BlockedAsk(s, rows, envelope); }
    case Serve(_, _, _, _) => if s.link.Asked? { RefusedServe(s, e); }
    case _ =>
  }

  lemma {:induction false} BlockedRun(s: State, es: seq<Event>, t: State)
    requires Inv(s) && Blocked(s) && Reaches(s, es, t)
    ensures Blocked(t) && t.control == s.control && t.child.acks == s.child.acks
    decreases |es|
  {
    if es != [] {
      BlockedStep(s, es[0]);
      StepKeepsInv(s, es[0]);
      BlockedRun(Step(s, es[0]), es[1..], t);
    }
  }

  /** Once not even the shortest report can be booked, no later one is, whatever happens: neither the
      controller's books nor the child's acknowledgements ever change again. */
  lemma BlockedForever(s: State, es: seq<Event>, t: State, fs: seq<Event>, w: State)
    requires Init(s) && Reaches(s, es, t) && t.link.Idle? && Stuck(t.child, t.control)
    requires Reaches(t, fs, w)
    ensures w.control == t.control && w.child.acks == t.child.acks && !w.link.Answered? && Stuck(w.child, w.control)
  {
    ReachableInv(s, es, t);
    BlockedRun(t, fs, w);
  }
}
