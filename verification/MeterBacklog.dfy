/** A backlog that outgrows a request: 256 members on 16 nodes, replaced by 256 others under new rules
    while the child cannot get a report through. */
module MeterBacklog {
  import opened Common
  import opened Sums
  import opened MeterModel
  import opened MeterSafety
  import opened MeterExchange
  import opened MeterTheorems
  import opened MeterLimits
  import opened MeterWitness

  const LONGEST := 48

  /** One of several node ids of the greatest length. */
  function LongName(j: nat): (s: string)
    ensures |s| == LONGEST == MAX_NODE_ID
  {
    seq(LONGEST, x => if x < j then 'a' else 'b')
  }

  /** A letter repeated. */
  function Letters(n: nat, letter: char): (s: string)
    ensures |s| == n && forall i :: 0 <= i < n ==> s[i] == letter
  {
    seq(n, x => letter)
  }

  /** The default nodes, and up to fourteen others. */
  function Name(j: nat): (s: string)
    requires j < 16
    ensures 8 <= |s| <= MAX_NODE_ID
  {
    if j == 0 then VLESS_MAIN else if j == 1 then HY2_MAIN else LongName(j)
  }

  lemma NamesDiffer(i: nat, j: nat)
    requires i < j < 16
    ensures Name(i) != Name(j)
  {
    assert |VLESS_MAIN| == 10 && |HY2_MAIN| == 8;
    if i >= 2 {
      assert LongName(i)[i] == 'b' && LongName(j)[i] == 'a';
    }
  }

  /** A period as long as those of purchased cycles. */
  const THIS_MONTH: Period := Letters(MAX_PERIOD, '0')

  /** A free rule under a revision as long as random tokens are. */
  function Free(letter: char): (r: Rule)
    ensures |r.revision| == MAX_REVISION && !r.package && r.rate == 0
  {
    Rule(Letters(MAX_REVISION, letter), 0, false)
  }

  predicate NameFits(n: NodeId) { 8 <= |n| <= MAX_NODE_ID }

  function Nodes(n: nat, r: Rule): (m: map<NodeId, Rule>)
    requires n <= 16
    ensures |m| <= n && (forall x :: x in m ==> m[x] == r && NameFits(x)) && forall j: nat :: j < n ==> Name(j) in m
  {
    if n == 0 then map[] else WithNode(Nodes(n - 1, r), Name(n - 1), r)
  }

  function WithNode(m: map<NodeId, Rule>, x: NodeId, r: Rule): (w: map<NodeId, Rule>)
    ensures w == m[x := r] && |w| <= |m| + 1
  {
    assert m[x := r].Keys == m.Keys + {x};
    assert |m[x := r]| == |m[x := r].Keys| && |m| == |m.Keys|;
    m[x := r]
  }

  /** The `i`th of 4096 pairs of a member, from `first` on, and a node, with one byte. */
  function Cell(first: nat, i: nat, r: Rule): Row { Row(Key(first + i / 16, Name(i % 16), THIS_MONTH, r), Pair(1, 0)) }

  const PAIRS := 4096

  function Cells(first: nat, r: Rule): seq<Row> { seq(PAIRS, i requires 0 <= i < PAIRS => Cell(first, i, r)) }

  lemma CellsDiffer(first: nat, i: nat, j: nat, r: Rule)
    requires i < j
    ensures Cell(first, i, r).key != Cell(first, j, r).key
  {
    if i / 16 == j / 16 {
      NamesDiffer(i % 16, j % 16);
    }
  }

  lemma CellsDistinct(first: nat, r: Rule)
    ensures Distinct(Cells(first, r))
  {
    forall i, j | 0 <= i < j < PAIRS ensures Cells(first, r)[i].key != Cells(first, r)[j].key {
      CellsDiffer(first, i, j, r);
    }
  }

  /** Who a key of these rows belongs to, and under which rule it is. */
  lemma CellOf(first: nat, r: Rule, row: Row)
    requires row in Cells(first, r)
    ensures first <= row.key.user < first + 256 && row.key.rule == r
    ensures |row.key.node| >= 8 && |row.key.period| == MAX_PERIOD
  {
    var i :| 0 <= i < PAIRS && Cells(first, r)[i] == row;
    assert Cells(first, r)[i] == Cell(first, i, r);
  }

  // ------------------------------------------------------------------ metering every pair

  /** The child may meter a byte under key `k`, at no cost. */
  ghost predicate Ready(c: Child, k: Key)
  {
    && k.user in c.meters && k.period == c.meters[k.user].period
    && (k.node, k.rule) in c.policy && k.rule.rate == 0
  }

  /** Every member has room for `n` more bytes. */
  ghost predicate Spare(c: Child, n: nat)
  {
    forall u :: u in c.meters ==> c.meters[u].up.raw + n <= COUNTER_LIMIT && c.meters[u].up.quota <= COUNTER_LIMIT && Whole(c.meters[u])
  }

  lemma FreeCharge(t: Total)
    requires t.raw + 1 <= COUNTER_LIMIT && t.quota <= COUNTER_LIMIT && t.rest == 0
    ensures Charge(t, 1, 0) == Some(Total(t.raw + 1, t.quota, 0))
  {
    WeightedExact(1, 0, 0);
  }

  /** `d` is `c` with other totals of the same members and another table. */
  ghost predicate Onward(c: Child, d: Child, rows: map<Key, Pair>)
  {
    && d.meters.Keys == c.meters.Keys && (forall u :: u in c.meters ==> d.meters[u].period == c.meters[u].period)
    && d == c.(meters := d.meters, rows := rows)
  }

  lemma CollectFree(c: Child, k: Key, n: nat)
    requires Ready(c, k) && k !in c.rows && n > 0 && Spare(c, n)
    ensures Onward(c, CollectAt(c, k, true, 1), c.rows[k := Pair(1, 0)]) && Spare(CollectAt(c, k, true, 1), n - 1)
  {
    FreeCharge(c.meters[k.user].up);
  }

  ghost predicate AllReady(c: Child, rows: seq<Row>)
  {
    && Distinct(rows)
    && forall i :: 0 <= i < |rows| ==> Ready(c, rows[i].key) && rows[i].key !in c.rows && rows[i].bytes == Pair(1, 0)
  }

  lemma OnwardReady(c: Child, d: Child, rows: seq<Row>)
    requires rows != [] && AllReady(c, rows) && Onward(c, d, c.rows[rows[0].key := Pair(1, 0)])
    ensures AllReady(d, rows[1..])
  {
    forall i | 0 <= i < |rows[1..]|
      ensures Ready(d, rows[1..][i].key) && rows[1..][i].key !in d.rows && rows[1..][i].bytes == Pair(1, 0)
    {
      assert rows[1..][i] == rows[i + 1] && Ready(c, rows[i + 1].key);
    }
  }

  ghost predicate Filled(c: Child, d: Child, rows: seq<Row>)
  {
    && Onward(c, d, d.rows) && (forall k :: k in d.rows <==> k in c.rows || k in KeysOf(rows))
    && (forall k :: k in c.rows ==> k in d.rows && d.rows[k] == c.rows[k])
    && forall i :: 0 <= i < |rows| ==> rows[i].key in d.rows && d.rows[rows[i].key] == rows[i].bytes
  }

  lemma FilledFirst(c: Child, d: Child, e: Child, rows: seq<Row>)
    requires rows != [] && AllReady(c, rows) && Onward(c, d, c.rows[rows[0].key := Pair(1, 0)]) && Filled(d, e, rows[1..])
    ensures Filled(c, e, rows)
  {
    assert KeysOf(rows) == {rows[0].key} + KeysOf(rows[1..]) by {
      forall k | k in KeysOf(rows) ensures k == rows[0].key || k in KeysOf(rows[1..]) {
        var i :| 0 <= i < |rows| && rows[i].key == k;
        if i > 0 {
          assert rows[1..][i - 1].key == k;
        }
      }
      assert forall i :: 0 <= i < |rows[1..]| ==> rows[1..][i] == rows[i + 1];
    }
    forall i | 0 <= i < |rows| ensures rows[i].key in e.rows && e.rows[rows[i].key] == rows[i].bytes {
      if i > 0 {
        assert rows[1..][i - 1] == rows[i];
      } else {
        assert rows[0].key in d.rows;
      }
    }
  }

  /** The child meters a byte under every key, whatever is on its way. */
  lemma {:induction false} CollectAll(s: State, rows: seq<Row>, more: nat) returns (es: seq<Event>, t: State)
    requires Inv(s) && AllReady(s.child, rows) && Spare(s.child, |rows| + more)
    ensures Reaches(s, es, t) && Inv(t) && t.control == s.control && t.link == s.link
    ensures Filled(s.child, t.child, rows) && Spare(t.child, more)
    decreases |rows|
  {
    if rows == [] {
      es, t := [], s;
    } else {
      var k := rows[0].key;
      assert Ready(s.child, k);
      var e := Collect(k, true, 1);
      var m := Step(s, e);
      CollectKeepsInv(s, k, true, 1);
      CollectFree(s.child, k, |rows| + more);
      OnwardReady(s.child, m.child, rows);
      var fs;
      fs, t := CollectAll(m, rows[1..], more);
      FilledFirst(s.child, m.child, t.child, rows);
      OneStep(s, e, m);
      RunOn(s, [e], m, fs, t);
      es := [e] + fs;
    }
  }

  // ------------------------------------------------------------------ the run

  const OLD: nat := 1
  const NEW: nat := 257

  ghost predicate HasMembers(c: Child, first: nat)
  {
    forall u: UserId :: first <= u < first + 256 ==> u in c.meters && c.meters[u].period == THIS_MONTH
  }

  ghost predicate HasRules(c: Child, r: Rule)
  {
    r.rate == 0 && forall j: nat :: j < 16 ==> (Name(j), r) in c.policy
  }

  lemma CellReady(c: Child, first: nat, r: Rule, i: nat)
    requires HasMembers(c, first) && HasRules(c, r) && i < PAIRS
    ensures Ready(c, Cell(first, i, r).key)
  {
    assert first <= first + i / 16 < first + 256;
  }

  lemma CellsReady(c: Child, first: nat, r: Rule)
    requires HasMembers(c, first) && HasRules(c, r) && forall k :: k in c.rows ==> k.rule != r
    ensures AllReady(c, Cells(first, r))
  {
    CellsDistinct(first, r);
    forall i | 0 <= i < PAIRS ensures Ready(c, Cells(first, r)[i].key) && Cells(first, r)[i].key !in c.rows {
      CellReady(c, first, r, i);
    }
  }

  ghost predicate ManyMembers(members: map<UserId, Period>, first: nat)
  {
    && |members| == 256 && (forall u: UserId :: u in members <==> first <= u < first + 256)
    && forall u :: u in members ==> members[u] == THIS_MONTH
  }

  ghost predicate ManyNodes(nodes: map<NodeId, Rule>, r: Rule)
  {
    |nodes| <= 16 && (forall j: nat :: j < 16 ==> Name(j) in nodes) && forall n :: n in nodes ==> nodes[n] == r && NameFits(n)
  }

  ghost predicate FreeRule(r: Rule) { r.rate == 0 && !r.package && |r.revision| == MAX_REVISION }

  lemma TheyFit(members: map<UserId, Period>, first: nat, nodes: map<NodeId, Rule>, r: Rule)
    requires ManyMembers(members, first) && first > 0 && ManyNodes(nodes, r) && FreeRule(r)
    ensures MembersFit(members) && NodesFit(nodes)
  {
    assert Name(0) in nodes && Name(1) in nodes;
  }

  lemma TwoPolicies() returns (members: map<UserId, Period>, others: map<UserId, Period>, r: Rule, q: Rule,
                               former: map<NodeId, Rule>, renewed: map<NodeId, Rule>)
    ensures ManyMembers(members, OLD) && ManyMembers(others, NEW) && FreeRule(r) && FreeRule(q) && r != q
    ensures ManyNodes(former, r) && ManyNodes(renewed, q)
  {
    members, others := Grants(OLD, OLD + 256, THIS_MONTH), Grants(NEW, NEW + 256, THIS_MONTH);
    r, q := Free('a'), Free('b');
    assert r.revision[0] != q.revision[0];
    former, renewed := Nodes(16, r), Nodes(16, q);
  }

  lemma MembersThere(c: Child, members: map<UserId, Period>, first: nat, nodes: map<NodeId, Rule>)
    requires ManyMembers(members, first)
    ensures HasMembers(Apply(c, members, nodes), first)
  {
    forall u: UserId | first <= u < first + 256 ensures u in AppliedMeters(c, members) && AppliedMeters(c, members)[u].period == THIS_MONTH {
      AppliedAt(c, members, u);
    }
  }

  lemma RulesThere(c: Child, members: map<UserId, Period>, nodes: map<NodeId, Rule>, r: Rule)
    requires ManyNodes(nodes, r) && r.rate == 0
    ensures HasRules(Apply(c, members, nodes), r)
  {
    forall j: nat | j < 16 ensures (Name(j), r) in nodes.Items {
      assert Name(j) in nodes;
    }
  }

  /** The members and the rules of a policy are there once it is applied. */
  lemma PolicyThere(c: Child, members: map<UserId, Period>, first: nat, nodes: map<NodeId, Rule>, r: Rule)
    requires ManyMembers(members, first) && ManyNodes(nodes, r) && r.rate == 0
    ensures var d := Apply(c, members, nodes); HasMembers(d, first) && HasRules(d, r) && d.rows == c.rows && d.acks == c.acks
  {
    MembersThere(c, members, first, nodes);
    RulesThere(c, members, nodes, r);
  }

  /** Who was there stays, and the newcomers have all the room. */
  lemma OthersStay(c: Child, members: map<UserId, Period>, nodes: map<NodeId, Rule>, first: nat, n: nat)
    requires Spare(c, n) && n <= COUNTER_LIMIT && HasMembers(c, first) && forall u :: u in members ==> u !in c.meters
    ensures Spare(Apply(c, members, nodes), n) && HasMembers(Apply(c, members, nodes), first)
  {
    forall u | u in AppliedMeters(c, members)
      ensures AppliedMeters(c, members)[u] == if u in c.meters then c.meters[u] else FromBase(Pair(0, 0), members[u])
    {
      AppliedAt(c, members, u);
    }
  }

  lemma {:induction false} CellsTakeBytes(rows: seq<Row>)
    requires forall row :: row in rows ==>
               |row.key.node| >= 8 && |row.key.period| == MAX_PERIOD && |row.key.rule.revision| == MAX_REVISION
    ensures RowsBytes(rows) >= 183 * |rows|
    decreases |rows|
  {
    if rows != [] {
      assert rows[|rows| - 1] in rows;
      CellsTakeBytes(rows[..|rows| - 1]);
    }
  }

  /** Rows that are all in the table and not acknowledged at all are pending, with all their bytes. */
  lemma BacklogWeighs(c: Child, rows: seq<Row>)
    requires c.acks == map[] && Distinct(rows) && rows != []
    requires forall i :: 0 <= i < |rows| ==> rows[i].key in c.rows && rows[i].bytes == c.rows[rows[i].key]
    ensures PendingBytes(c) >= 15 + RowsBytes(rows)
  {
    RowsBytesIsSum(rows, c.rows);
    assert rows[0].key in PendingKeys(c);
    assert KeysOf(rows) <= PendingKeys(c);
    SumSuperset(KeysOf(rows), PendingKeys(c), Weight(c.rows));
  }

  lemma JoinDistinct(a: seq<Row>, b: seq<Row>)
    requires Distinct(a) && Distinct(b) && forall x, y :: x in a && y in b ==> x.key != y.key
    ensures Distinct(a + b)
  {
  }

  /** Everything metered under the new rules: the retired members' rows and the newcomers'. */
  function LastCells(q: Rule): seq<Row> { Cells(OLD, q) + Cells(NEW, q) }

  lemma LastCellOf(q: Rule, row: Row)
    requires row in LastCells(q)
    ensures row.key.rule == q && |row.key.node| >= 8 && |row.key.period| == MAX_PERIOD
  {
    if row in Cells(OLD, q) {
      CellOf(OLD, q, row);
    } else {
      CellOf(NEW, q, row);
    }
  }

  lemma LastDistinct(q: Rule)
    ensures Distinct(LastCells(q))
  {
    CellsDistinct(OLD, q);
    CellsDistinct(NEW, q);
    forall x, y | x in Cells(OLD, q) && y in Cells(NEW, q) ensures x.key != y.key {
      CellOf(OLD, q, x);
      CellOf(NEW, q, y);
    }
    JoinDistinct(Cells(OLD, q), Cells(NEW, q));
  }

  lemma LastReady(c: Child, q: Rule)
    requires HasMembers(c, OLD) && HasMembers(c, NEW) && HasRules(c, q) && forall k :: k in c.rows ==> k.rule != q
    ensures AllReady(c, LastCells(q))
  {
    LastDistinct(q);
    CellsReady(c, OLD, q);
    CellsReady(c, NEW, q);
    forall i | 0 <= i < |LastCells(q)| ensures Ready(c, LastCells(q)[i].key) && LastCells(q)[i].key !in c.rows && LastCells(q)[i].bytes == Pair(1, 0) {
      if i < PAIRS {
        assert LastCells(q)[i] == Cells(OLD, q)[i];
      } else {
        assert LastCells(q)[i] == Cells(NEW, q)[i - PAIRS];
      }
    }
  }

  lemma HeldOn(c: Child, d: Child, e: Child, f: Child, a: seq<Row>, b: seq<Row>)
    requires Filled(c, d, a) && e.rows == d.rows && Filled(e, f, b)
    ensures forall i :: 0 <= i < |a + b| ==> (a + b)[i].key in f.rows && (a + b)[i].bytes == f.rows[(a + b)[i].key]
  {
  }

  lemma Outgrows(c: Child, d: Child, e: Child, f: Child, r: Rule, q: Rule)
    requires Filled(c, d, Cells(OLD, r)) && e.rows == d.rows && Filled(e, f, LastCells(q)) && f.acks == map[]
    requires FreeRule(r) && FreeRule(q) && r != q
    ensures PendingBytes(f) > MAX_BYTES
  {
    var all := Cells(OLD, r) + LastCells(q);
    CellsDistinct(OLD, r);
    LastDistinct(q);
    forall row | row in Cells(OLD, r) ensures row.key.rule == r && |row.key.node| >= 8 && |row.key.period| == MAX_PERIOD {
      CellOf(OLD, r, row);
    }
    forall row | row in LastCells(q) ensures row.key.rule == q && |row.key.node| >= 8 && |row.key.period| == MAX_PERIOD {
      LastCellOf(q, row);
    }
    JoinDistinct(Cells(OLD, r), LastCells(q));
    HeldOn(c, d, e, f, Cells(OLD, r), LastCells(q));
    CellsTakeBytes(all);
    BacklogWeighs(f, all);
  }

  /** A site with 256 members and 16 nodes. */
  lemma FullSite(o: State, members: map<UserId, Period>, nodes: map<NodeId, Rule>) returns (es: seq<Event>, s: State)
    requires Quiet(o, THIS_MONTH) && |o.child.meters| == 0 && MembersFit(members) && NodesFit(nodes)
    requires |members| == 256 && forall u :: u in members ==> members[u] == THIS_MONTH
    ensures Reaches(o, es, s) && Quiet(s, THIS_MONTH) && s.child.meters.Keys == members.Keys
    ensures s.child == Apply(o.child, members, nodes)
  {
    es, s := QuietRound(o, THIS_MONTH, members, nodes, 0x10_0000);
  }

  lemma SameCount(meters: map<UserId, Usage>, members: map<UserId, Period>)
    requires meters.Keys == members.Keys
    ensures |meters| == |members|
  {
    assert |meters| == |meters.Keys| && |members| == |members.Keys|;
  }

  /** The child asks, meters under the old rules, and the controller answers with new members and rules. */
  lemma BacklogAsked(s: State, r: Rule, more: nat) returns (es: seq<Event>, c: State)
    requires Quiet(s, THIS_MONTH) && |s.child.meters| == 256 && AllReady(s.child, Cells(OLD, r)) && Spare(s.child, PAIRS + more)
    ensures Reaches(s, es, c) && Inv(c) && c.link.Asked? && c.link.report == Report(s.child, []) && c.control == s.control
    ensures Accepted(c.control, c.link.report) && Filled(s.child, c.child, Cells(OLD, r)) && Spare(c.child, more)
  {
    var a := QuietAsk(s, THIS_MONTH);
    var ask := Ask([], LeastEnvelope(|s.child.meters|));
    OneStep(s, ask, a);
    var fs;
    fs, c := CollectAll(a, Cells(OLD, r), more);
    RunOn(s, [ask], a, fs, c);
    es := [ask] + fs;
  }

  lemma PolicyAnswered(c: State, members: map<UserId, Period>, nodes: map<NodeId, Rule>) returns (es: seq<Event>, t: State)
    requires Inv(c) && c.link.Asked? && c.link.report.rows == [] && Accepted(c.control, c.link.report)
    requires MembersFit(members) && NodesFit(nodes)
    ensures Reaches(c, es, t) && Inv(t) && t.link.Idle? && t.child == Apply(c.child, members, nodes)
  {
    var b;
    b, t := QuietAnswer(c, members, nodes, 0x10_0000);
    var serve := Serve(true, members, nodes, 0x10_0000);
    TwoSteps(c, serve, Deliver(true), b, t);
    es := [serve, Deliver(true)];
  }

  lemma FullSiteReady(o: Child, c: Child, members: map<UserId, Period>, nodes: map<NodeId, Rule>, r: Rule)
    requires c == Apply(o, members, nodes) && o.meters == map[] && o.rows == map[] && FreeRule(r)
    requires ManyMembers(members, OLD) && ManyNodes(nodes, r)
    ensures AllReady(c, Cells(OLD, r)) && Spare(c, 3 * PAIRS) && HasMembers(c, OLD)
  {
    PolicyThere(o, members, OLD, nodes, r);
    CellsReady(c, OLD, r);
    forall u | u in AppliedMeters(o, members) ensures AppliedMeters(o, members)[u] == FromBase(Pair(0, 0), THIS_MONTH) {
      AppliedAt(o, members, u);
    }
  }

  lemma OldRows(c: Child, d: Child, r: Rule)
    requires Filled(c, d, Cells(OLD, r)) && c.rows == map[]
    ensures forall k :: k in d.rows ==> k.rule == r
  {
    forall k | k in d.rows ensures k.rule == r {
      assert k in KeysOf(Cells(OLD, r));
      var i :| 0 <= i < PAIRS && Cells(OLD, r)[i].key == k;
      CellOf(OLD, r, Cells(OLD, r)[i]);
    }
  }

  lemma ChangeReady(c: Child, d: Child, e: Child, members: map<UserId, Period>, nodes: map<NodeId, Rule>, r: Rule, q: Rule)
    requires Filled(c, d, Cells(OLD, r)) && c.rows == map[] && Spare(d, 2 * PAIRS) && HasMembers(c, OLD) && q != r && FreeRule(q)
    requires e == Apply(d, members, nodes) && ManyMembers(members, NEW) && ManyNodes(nodes, q)
    requires forall u :: u in c.meters ==> u < NEW
    ensures AllReady(e, LastCells(q)) && Spare(e, 2 * PAIRS) && e.rows == d.rows && e.acks == d.acks
  {
    PolicyThere(d, members, NEW, nodes, q);
    OthersStay(d, members, nodes, OLD, 2 * PAIRS);
    OldRows(c, d, r);
    LastReady(e, q);
  }

  lemma MembersChange(s: State, r: Rule, q: Rule, members: map<UserId, Period>, nodes: map<NodeId, Rule>)
    returns (es: seq<Event>, c: State, t: State)
    requires Quiet(s, THIS_MONTH) && |s.child.meters| == 256 && (forall u :: u in s.child.meters ==> u < NEW)
    requires AllReady(s.child, Cells(OLD, r)) && Spare(s.child, 3 * PAIRS) && HasMembers(s.child, OLD)
    requires ManyMembers(members, NEW) && ManyNodes(nodes, q) && FreeRule(q) && q != r
    ensures Reaches(s, es, t) && Inv(t) && t.link.Idle? && AllReady(t.child, LastCells(q)) && Spare(t.child, 2 * PAIRS)
    ensures Filled(s.child, c.child, Cells(OLD, r)) && t.child.rows == c.child.rows && t.child.acks == s.child.acks
    ensures t.child.meters.Keys == s.child.meters.Keys + members.Keys
  {
    var asked, turn;
    asked, c := BacklogAsked(s, r, 2 * PAIRS);
    TheyFit(members, NEW, nodes, q);
    turn, t := PolicyAnswered(c, members, nodes);
    ChangeReady(s.child, c.child, t.child, members, nodes, r, q);
    ApplyFrame(c.child, members, nodes);
    RunOn(s, asked, c, turn, t);
    es := asked + turn;
  }

  /** A policy with other members and a new rule for every node, on its way while the child meters under
      the old rules; afterwards what the retired members still used is settled under the new rules. The
      12288 rows of then 512 members outgrow the limit of a request, and the site is stopped for good. */
  lemma TooManyBytes() returns (es: seq<Event>, t: State)
    ensures Init(Start()) && Reaches(Start(), es, t) && t.link.Idle? && Stuck(t.child, t.control)
    ensures |t.child.meters| == 2 * MAX_GRANTS && PendingBytes(t.child) > MAX_BYTES
  {
    StartIsQuiet(THIS_MONTH);
    var members, others, r, q, former, renewed := TwoPolicies();
    es, t := Outgrown(Start(), members, others, r, q, former, renewed);
  }

  lemma Outgrown(o: State, members: map<UserId, Period>, others: map<UserId, Period>, r: Rule, q: Rule,
                 former: map<NodeId, Rule>, renewed: map<NodeId, Rule>)
    returns (es: seq<Event>, t: State)
    requires Quiet(o, THIS_MONTH) && o.child.meters == map[]
    requires ManyMembers(members, OLD) && ManyMembers(others, NEW) && FreeRule(r) && FreeRule(q) && r != q
    requires ManyNodes(former, r) && ManyNodes(renewed, q)
    ensures Reaches(o, es, t) && t.link.Idle? && Stuck(t.child, t.control)
    ensures |t.child.meters| == 2 * MAX_GRANTS && PendingBytes(t.child) > MAX_BYTES
  {
    TheyFit(members, OLD, former, r);
    var joined, s := FullSite(o, members, former);
    SameCount(s.child.meters, members);
    FullSiteReady(o.child, s.child, members, former, r);
    var changed, c, d := MembersChange(s, r, q, others, renewed);
    var last;
    last, t := CollectAll(d, LastCells(q), 0);
    AcksStayEmpty(s);
    Outgrows(s.child, c.child, d.child, t.child, r, q);
    RunOn(s, changed, d, last, t);
    RunOn(o, joined, s, changed + last, t);
    es := joined + (changed + last);
    TwiceAsMany(t.child.meters, members, others);
  }

  lemma AcksStayEmpty(s: State)
    requires Quiet(s, THIS_MONTH)
    ensures s.child.acks == map[]
  {
  }

  lemma TwiceAsMany(meters: map<UserId, Usage>, members: map<UserId, Period>, others: map<UserId, Period>)
    requires ManyMembers(members, OLD) && ManyMembers(others, NEW) && meters.Keys == members.Keys + others.Keys
    ensures |meters| == 512
  {
    assert members.Keys !! others.Keys;
    assert |meters| == |meters.Keys| && |members| == |members.Keys| && |others| == |others.Keys|;
  }
}
