/** Runs after which a site's reports are refused for good. */
module MeterWitness {
  import opened Common
  import opened Sums
  import opened MeterModel
  import opened MeterSafety
  import opened MeterExchange
  import opened MeterTheorems
  import opened MeterLimits

  lemma {:induction false} RunOn(s: State, es: seq<Event>, t: State, fs: seq<Event>, w: State)
    requires Reaches(s, es, t) && Reaches(t, fs, w)
    ensures Reaches(s, es + fs, w)
    decreases |es|
  {
    if es == [] {
      assert es + fs == fs;
    } else {
      RunOn(Step(s, es[0]), es[1..], t, fs, w);
      assert (es + fs)[1..] == es[1..] + fs;
    }
  }

  /** A new site. */
  function Start(): (s: State)
    ensures Init(s)
  {
    State(Child(map[], map[], map[], map[], {}, map[]), Control(map[], map[], map[], {}, {}, map[]), Idle)
  }

  /** Between exchanges, with nothing metered by row, nothing lost, and everyone in one period. */
  ghost predicate Quiet(s: State, p: Period)
  {
    && Inv(s) && s.link.Idle? && s.child.rows == map[] && NoLoss(s.child.lost) && NoLoss(s.control.lost)
    && (forall u :: u in s.child.meters ==> s.child.meters[u].period == p && Whole(s.child.meters[u]))
    && (forall u :: u in s.control.usage ==> s.control.usage[u].period == p)
  }

  lemma StartIsQuiet(p: Period)
    ensures Quiet(Start(), p)
  {
    InitIsInv(Start());
  }

  lemma QuietReportable(s: State, p: Period)
    requires Quiet(s, p) && |s.child.meters| <= MAX_USERS
    ensures Reportable(s.child, s.control, LeastEnvelope(|s.child.meters|))
    ensures Allowed(s, Ask([], LeastEnvelope(|s.child.meters|)))
  {
    assert PendingKeys(s.child) == {};
  }

  lemma QuietLoss(s: State, p: Period, u: UserId)
    requires Quiet(s, p)
    ensures u in s.child.meters ==> LossAfter(s.control, Report(s.child, []), u) == Pair(0, 0)
  {
  }

  lemma QuietBooks(s: State, p: Period, w: Control)
    requires Quiet(s, p) && w.lost == BookedLosses(s.control, Report(s.child, [])) && w.usage == s.control.usage + s.child.meters
    ensures NoLoss(w.lost) && forall u :: u in w.usage ==> w.usage[u].period == p
  {
    forall u | u in w.lost ensures w.lost[u] == Pair(0, 0) {
      QuietLoss(s, p, u);
    }
  }

  /** A request without rows that is accepted. */
  lemma QuietAsk(s: State, p: Period) returns (a: State)
    requires Quiet(s, p) && |s.child.meters| <= MAX_USERS
    ensures a == Step(s, Ask([], LeastEnvelope(|s.child.meters|))) && Allowed(s, Ask([], LeastEnvelope(|s.child.meters|)))
    ensures a == State(s.child, s.control, Asked(Report(s.child, []), s.child.rows, s.child.lost))
    ensures Accepted(a.control, a.link.report) && Inv(a)
  {
    QuietReportable(s, p);
    AskedAccepted(s, [], LeastEnvelope(|s.child.meters|));
    AskKeepsInv(s, [], LeastEnvelope(|s.child.meters|));
    a := Step(s, Ask([], LeastEnvelope(|s.child.meters|)));
  }

  /** What the controller and the child make of such a request, whatever was metered meanwhile. */
  lemma QuietAnswer(a: State, members: map<UserId, Period>, nodes: map<NodeId, Rule>, other: nat) returns (b: State, t: State)
    requires Inv(a) && a.link.Asked? && a.link.report.rows == [] && Accepted(a.control, a.link.report)
    requires other <= MAX_BYTES && Allowed(a, Serve(true, members, nodes, other))
    ensures b == Step(a, Serve(true, members, nodes, other)) && t == Step(b, Deliver(true)) && Inv(t)
    ensures t == State(Apply(a.child, members, nodes), Note(Book(a.control, a.link.report), members, nodes), Idle)
  {
    BookStep(a, members, nodes, other);
    BookKeepsInv(a, members, nodes, other);
    b := Step(a, Serve(true, members, nodes, other));
    t := Step(b, Deliver(true));
    DeliverKeepsInv(b, true);
    DeliverResult(b, true);
    assert a.child.(acks := Table(a.child.acks, [])) == a.child;
  }

  lemma QuietApply(c: Child, p: Period, members: map<UserId, Period>, nodes: map<NodeId, Rule>)
    requires NoLoss(c.lost) && forall u :: u in c.meters ==> c.meters[u].period == p && Whole(c.meters[u])
    requires forall u :: u in members ==> members[u] == p
    ensures var d := Apply(c, members, nodes);
            && NoLoss(d.lost) && d.meters.Keys == c.meters.Keys + members.Keys
            && forall u :: u in d.meters ==> d.meters[u].period == p && Whole(d.meters[u])
  {
    var meters, lost := AppliedMeters(c, members), AppliedLosses(c, members);
    forall u | u in meters ensures meters[u].period == p && Whole(meters[u]) {
      AppliedAt(c, members, u);
    }
    forall u | u in lost ensures lost[u] == Pair(0, 0) {
      AppliedAt(c, members, u);
    }
  }

  lemma QuietAfter(t: State, p: Period, c: Child, members: map<UserId, Period>, nodes: map<NodeId, Rule>)
    requires Inv(t) && t.link.Idle? && t.child == Apply(c, members, nodes) && c.rows == map[] && NoLoss(c.lost)
    requires forall u :: u in c.meters ==> c.meters[u].period == p && Whole(c.meters[u])
    requires forall u :: u in members ==> members[u] == p
    requires NoLoss(t.control.lost) && forall u :: u in t.control.usage ==> t.control.usage[u].period == p
    ensures Quiet(t, p) && t.child.meters.Keys == c.meters.Keys + members.Keys
  {
    QuietApply(c, p, members, nodes);
  }

  lemma QuietTrip(s: State, p: Period, members: map<UserId, Period>, nodes: map<NodeId, Rule>, other: nat)
    returns (es: seq<Event>, t: State)
    requires Quiet(s, p) && |s.child.meters| <= MAX_USERS && other <= MAX_BYTES && Allowed(s, Serve(true, members, nodes, other))
    ensures Reaches(s, es, t) && Inv(t)
    ensures t == State(Apply(s.child, members, nodes), Note(Book(s.control, Report(s.child, [])), members, nodes), Idle)
  {
    var a := QuietAsk(s, p);
    var b;
    b, t := QuietAnswer(a, members, nodes, other);
    var ask, serve := Ask([], LeastEnvelope(|s.child.meters|)), Serve(true, members, nodes, other);
    ThreeSteps(s, ask, serve, Deliver(true), a, b, t);
    es := [ask, serve, Deliver(true)];
  }

  /** One exchange that brings members and nodes and leaves the site quiet. */
  lemma QuietRound(s: State, p: Period, members: map<UserId, Period>, nodes: map<NodeId, Rule>, other: nat)
    returns (es: seq<Event>, t: State)
    requires Quiet(s, p) && |s.child.meters| <= MAX_USERS && other <= MAX_BYTES && Allowed(s, Serve(true, members, nodes, other))
    requires forall u :: u in members ==> members[u] == p
    ensures Reaches(s, es, t) && Quiet(t, p) && t.child.meters.Keys == s.child.meters.Keys + members.Keys
    ensures t.child == Apply(s.child, members, nodes) && t.control.usage == s.control.usage + s.child.meters
  {
    es, t := QuietTrip(s, p, members, nodes, other);
    QuietBooks(s, p, t.control);
    QuietAfter(t, p, s.child, members, nodes);
  }

  lemma ThreeSteps(s: State, d: Event, e: Event, f: Event, a: State, b: State, t: State)
    requires Allowed(s, d) && a == Step(s, d) && Allowed(a, e) && b == Step(a, e) && Allowed(b, f) && t == Step(b, f)
    ensures Reaches(s, [d, e, f], t)
  {
    OneStep(s, d, a);
    OneStep(a, e, b);
    OneStep(b, f, t);
    RunOn(a, [e], b, [f], t);
    RunOn(s, [d], a, [e] + [f], t);
    assert [d] + ([e] + [f]) == [d, e, f];
  }

  lemma TwoSteps(s: State, d: Event, e: Event, a: State, t: State)
    requires Allowed(s, d) && a == Step(s, d) && Allowed(a, e) && t == Step(a, e)
    ensures Reaches(s, [d, e], t)
  {
    OneStep(s, d, a);
    OneStep(a, e, t);
    RunOn(s, [d], a, [e], t);
    assert [d] + [e] == [d, e];
  }

  lemma OneStep(s: State, e: Event, t: State)
    requires Allowed(s, e) && t == Step(s, e)
    ensures Reaches(s, [e], t)
  {
    assert [e][1..] == [];
    assert Reaches(t, [], t);
  }

  // ------------------------------------------------------------------ policies

  ghost predicate KeyFits(k: Key)
  {
    k.user > 0 && |k.period| <= MAX_PERIOD && RuleFits(k.node, k.rule)
  }

  lemma DefaultNodes() returns (nodes: map<NodeId, Rule>)
    ensures NodesFit(nodes) && nodes.Keys == {VLESS_MAIN, HY2_MAIN} && |nodes| == 2
  {
    var rule := Rule("legacy-1", 1000, false);
    nodes := map[VLESS_MAIN := rule, HY2_MAIN := rule];
    assert |VLESS_MAIN| == 10 && |HY2_MAIN| == 8;
    assert nodes.Keys == {VLESS_MAIN, HY2_MAIN} && |nodes| == |nodes.Keys|;
  }

  /** The default nodes and the node of `k`. */
  lemma NodesWith(k: Key) returns (nodes: map<NodeId, Rule>)
    requires RuleFits(k.node, k.rule)
    ensures NodesFit(nodes) && k.node in nodes && nodes[k.node] == k.rule
  {
    var two := DefaultNodes();
    nodes := two[k.node := k.rule];
    assert nodes.Keys == two.Keys + {k.node};
    assert |nodes| == |nodes.Keys| <= |two.Keys| + 1;
  }

  lemma OneGrant(u: UserId, p: Period) returns (members: map<UserId, Period>)
    requires u > 0 && |p| <= MAX_PERIOD
    ensures members == map[u := p] && MembersFit(members)
  {
    members := map[u := p];
    assert members.Keys == {u} && |members| == |members.Keys|;
  }

  // ------------------------------------------------------------------ too many members

  function Users(lo: nat, hi: nat): (r: set<UserId>)
    requires lo <= hi
    ensures |r| == hi - lo && forall u :: u in r <==> lo <= u < hi
  {
    if lo == hi then {} else Users(lo, hi - 1) + {hi - 1}
  }

  lemma UsersJoin(mid: nat, hi: nat)
    requires 1 <= mid <= hi
    ensures Users(1, mid) + Users(mid, hi) == Users(1, hi)
  {
  }

  function Grants(lo: nat, hi: nat, p: Period): (m: map<UserId, Period>)
    requires lo <= hi
    ensures m.Keys == Users(lo, hi) && |m| == hi - lo && forall u :: u in m ==> m[u] == p
  {
    var m := map u | u in Users(lo, hi) :: p;
    assert |m| == |m.Keys| && m.Keys == Users(lo, hi);
    m
  }

  lemma JoinNext(s: State, n: nat, p: Period) returns (es: seq<Event>, t: State)
    requires n <= 16 && |p| <= MAX_PERIOD && Quiet(s, p) && s.child.meters.Keys == Users(1, 256 * n + 1)
    ensures Reaches(s, es, t) && Quiet(t, p) && t.child.meters.Keys == Users(1, 256 * n + 257)
  {
    assert |s.child.meters| == |s.child.meters.Keys|;
    var nodes := DefaultNodes();
    es, t := QuietRound(s, p, Grants(256 * n + 1, 256 * n + 257, p), nodes, 0x10_0000);
    UsersJoin(256 * n + 1, 256 * n + 257);
  }

  /** After `n` exchanges of 256 new members each. */
  lemma {:induction false} Joining(n: nat, p: Period) returns (es: seq<Event>, t: State)
    requires n <= 17 && |p| <= MAX_PERIOD
    ensures Reaches(Start(), es, t) && Quiet(t, p) && t.child.meters.Keys == Users(1, 256 * n + 1)
    decreases n
  {
    if n == 0 {
      StartIsQuiet(p);
      es, t := [], Start();
    } else {
      var before, s := Joining(n - 1, p);
      var round;
      round, t := JoinNext(s, n - 1, p);
      es := before + round;
      RunOn(Start(), before, s, round, t);
    }
  }

  /** Retired members stay in the child's report. Policies of 256 members at a time, each for people who
      were not there before, bring it beyond 4096, and the site is stopped for good. */
  lemma TooManyMembers(p: Period) returns (es: seq<Event>, t: State)
    requires |p| <= MAX_PERIOD
    ensures Init(Start()) && Reaches(Start(), es, t) && t.link.Idle? && |t.child.meters| > MAX_USERS && Stuck(t.child, t.control)
  {
    es, t := Joining(17, p);
    assert |t.child.meters| == |t.child.meters.Keys|;
  }

  // ------------------------------------------------------------------ one byte

  /** A member newly metered. */
  ghost predicate Single(c: Child, k: Key)
  {
    && c.meters == map[k.user := FromBase(Pair(0, 0), k.period)] && c.rows == map[] && c.acks == map[]
    && (k.node, k.rule) in c.policy && NoLoss(c.lost)
  }

  lemma SinglePolicy(k: Key, nodes: map<NodeId, Rule>)
    requires k.node in nodes && nodes[k.node] == k.rule
    ensures Single(Apply(Start().child, map[k.user := k.period], nodes), k)
  {
    var c, members := Start().child, map[k.user := k.period];
    AppliedAt(c, members, k.user);
    assert AppliedMeters(c, members) == map[k.user := FromBase(Pair(0, 0), k.period)];
    assert (k.node, k.rule) in nodes.Items;
  }

  /** One member, and a node beside the default ones. */
  lemma OneMember(k: Key) returns (es: seq<Event>, t: State)
    requires KeyFits(k)
    ensures Reaches(Start(), es, t) && Quiet(t, k.period) && Single(t.child, k) && t.control.usage == map[]
  {
    StartIsQuiet(k.period);
    var nodes := NodesWith(k);
    es, t := QuietRound(Start(), k.period, map[k.user := k.period], nodes, 1000);
    SinglePolicy(k, nodes);
  }

  lemma ChargeOne(rate: nat)
    requires ValidRate(rate)
    ensures Charge(Zero, 1, rate).Some? && Charge(Zero, 1, rate).value.rest == rate % 1000
  {
    WeightedExact(1, rate, 0);
  }

  /** What one byte under `k` leaves of a member newly metered. */
  function OneByte(k: Key): Usage
    requires Charge(Zero, 1, k.rule.rate).Some?
  {
    Usage(true, k.period, Charge(Zero, 1, k.rule.rate).value, Zero)
  }

  // ------------------------------------------------------------------ a package with its own rate

  /** The child meters a member under the rate of the member's package, whose rule the controller never
      noted for the site: one byte stops the site for good. */
  lemma PackageRate(k: Key, own: Rule) returns (es: seq<Event>, t: State)
    requires KeyFits(k) && ValidRate(own.rate) && own.package
    ensures Init(Start()) && Reaches(Start(), es, t) && t.link.Idle? && Stuck(t.child, t.control)
    ensures t.child.rows == map[k.(rule := own) := Pair(1, 0)]
  {
    var before, s := OneMember(k);
    var e := Collect(k.(rule := own), true, 1);
    t := Step(s, e);
    OneStep(s, e, t);
    RunOn(Start(), before, s, [e], t);
    es := before + [e];
    ChargeOne(own.rate);
  }

  // ------------------------------------------------------------------ a fraction lost at a turn

  lemma LostFraction(c: Child, v: Control, k: Key, q: Period, nodes: map<NodeId, Rule>, d: Child, w: Control, h: Heartbeat)
    requires ValidRate(k.rule.rate) && Charge(Zero, 1, k.rule.rate).Some? && k.rule.rate % 1000 != 0
    requires c.meters == map[k.user := OneByte(k)] && NoLoss(c.lost) && q != k.period
    requires v.usage == map[] && NoLoss(v.lost) && h.usage == map[k.user := FromBase(Pair(0, 0), k.period)]
    requires d == Apply(c, map[k.user := q], nodes) && w.usage == h.usage && w.lost == BookedLosses(v, h)
    ensures k.user in d.meters && !LossAgrees(d, w, k.user)
  {
    ChargeOne(k.rule.rate);
    AppliedAt(c, map[k.user := q], k.user);
    assert LossOf(w.lost, k.user) == Pair(0, 0);
    assert Forgets(w, k.user, q) == Pair(0, 0);
  }

  lemma TurnedBooks(v: Control, h: Heartbeat, members: map<UserId, Period>, nodes: map<NodeId, Rule>)
    requires v.usage == map[]
    ensures var w := Note(Book(v, h), members, nodes); w.usage == h.usage && w.lost == BookedLosses(v, h)
  {
    assert v.usage + h.usage == h.usage;
  }

  lemma CollectOnce(a: State, k: Key) returns (c: State)
    requires Inv(a) && Single(a.child, k) && Charge(Zero, 1, k.rule.rate).Some?
    ensures Allowed(a, Collect(k, true, 1)) && c == Step(a, Collect(k, true, 1)) && Inv(c)
    ensures c == State(a.child.(meters := map[k.user := OneByte(k)], rows := map[k := Pair(1, 0)]), a.control, a.link)
  {
    c := Step(a, Collect(k, true, 1));
    CollectKeepsInv(a, k, true, 1);
  }

  lemma FractionAsked(s: State, k: Key) returns (es: seq<Event>, a: State, c: State)
    requires Quiet(s, k.period) && Single(s.child, k) && Charge(Zero, 1, k.rule.rate).Some?
    ensures a == State(s.child, s.control, Asked(Report(s.child, []), s.child.rows, s.child.lost))
    ensures c == State(s.child.(meters := map[k.user := OneByte(k)], rows := map[k := Pair(1, 0)]), s.control, a.link)
    ensures Reaches(s, es, c) && Inv(c) && Accepted(s.control, Report(s.child, []))
  {
    a := QuietAsk(s, k.period);
    c := CollectOnce(a, k);
    es := [Ask([], LeastEnvelope(|s.child.meters|)), Collect(k, true, 1)];
    TwoSteps(s, es[0], es[1], a, c);
  }

  lemma TurnAnswered(c: State, k: Key, q: Period, nodes: map<NodeId, Rule>) returns (es: seq<Event>, t: State)
    requires Inv(c) && c.link.Asked? && c.link.report.rows == [] && Accepted(c.control, c.link.report)
    requires k.user > 0 && |q| <= MAX_PERIOD && NodesFit(nodes)
    ensures Reaches(c, es, t)
    ensures t == State(Apply(c.child, map[k.user := q], nodes), Note(Book(c.control, c.link.report), map[k.user := q], nodes), Idle)
  {
    var members := OneGrant(k.user, q);
    var b;
    b, t := QuietAnswer(c, members, nodes, 1000);
    var serve := Serve(true, members, nodes, 1000);
    TwoSteps(c, serve, Deliver(true), b, t);
    es := [serve, Deliver(true)];
  }

  /** One byte at a rate that is no whole number, metered after a request whose reply brings a new
      period: the child drops the fraction, the controller does not, and the site is stopped for good. */
  lemma FractionLost(k: Key, q: Period) returns (es: seq<Event>, t: State)
    requires KeyFits(k) && |q| <= MAX_PERIOD && k.rule.rate % 1000 != 0 && q != k.period
    ensures Init(Start()) && Reaches(Start(), es, t) && t.link.Idle? && Stuck(t.child, t.control)
    ensures t.child.meters.Keys == {k.user} && t.child.rows == map[k := Pair(1, 0)]
  {
    ChargeOne(k.rule.rate);
    var before, s := OneMember(k);
    var asked, a, c := FractionAsked(s, k);
    var turn;
    var nodes := NodesWith(k);
    turn, t := TurnAnswered(c, k, q, nodes);
    RunOn(s, asked, c, turn, t);
    RunOn(Start(), before, s, asked + turn, t);
    es := before + (asked + turn);
    FractionMissing(s.control, a.link.report, c.child, k, q, nodes, t.child, t.control);
  }

  lemma FractionMissing(v: Control, h: Heartbeat, c: Child, k: Key, q: Period, nodes: map<NodeId, Rule>, d: Child, w: Control)
    requires ValidRate(k.rule.rate) && Charge(Zero, 1, k.rule.rate).Some? && k.rule.rate % 1000 != 0
    requires c.meters == map[k.user := OneByte(k)] && NoLoss(c.lost) && q != k.period
    requires v.usage == map[] && NoLoss(v.lost) && h.usage == map[k.user := FromBase(Pair(0, 0), k.period)]
    requires d == Apply(c, map[k.user := q], nodes) && w == Note(Book(v, h), map[k.user := q], nodes)
    ensures k.user in d.meters && !LossAgrees(d, w, k.user) && d.meters.Keys == {k.user}
  {
    TurnedBooks(v, h, map[k.user := q], nodes);
    LostFraction(c, v, k, q, nodes, d, w, h);
  }
}
