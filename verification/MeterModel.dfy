/** Usage metering between a controller and one child site: cumulative per-node rows, the
    acknowledgement that lets the child stop sending a row, and the controller's recomputation of
    every total from the rows. Requests and replies may be lost or too large, members come and go and
    move to new quota periods, and a member's package may replace the rate of a node. */
module MeterModel {
  import opened Common
  import opened Sums

  type UserId = nat
  type NodeId = string
  type Period = string

  /** Limits of a report: rows, members, and bytes of the request and of the reply. */
  const MAX_ROWS: int := 32768
  const MAX_USERS: int := 4096
  const MAX_BYTES: int := 0x20_0000
  /** Limits of a policy: members, nodes, and the lengths of node ids, revisions and periods. */
  const MAX_GRANTS: int := 256
  const MAX_NODES: int := 16
  const MAX_NODE_ID: int := 48
  const MAX_REVISION: int := 16
  const MAX_PERIOD: int := 59
  /** The two nodes every policy has. */
  const VLESS_MAIN: NodeId := "vless-main"
  const HY2_MAIN: NodeId := "hy2-main"

  datatype Pair = Pair(up: nat, down: nat)
  /** An immutable billing rule: a rate in thousandths under its revision. A member's package may
      replace the rate of a node; the rule then has a revision of its own. */
  datatype Rule = Rule(revision: string, rate: nat, package: bool)
  datatype Key = Key(user: UserId, node: NodeId, period: Period, rule: Rule)
  datatype Row = Row(key: Key, bytes: Pair)

  /** One direction of a member's traffic: raw bytes, weighted bytes, and thousandths left over. */
  datatype Total = Total(raw: nat, quota: nat, rest: nat)
  datatype Usage = Usage(metered: bool, period: Period, up: Total, down: Total)

  const Zero := Total(0, 0, 0)
  const Nothing := Usage(false, "", Zero, Zero)

  predicate Within(a: Pair, b: Pair) { a.up <= b.up && a.down <= b.down }
  function Direction(p: Pair, up: bool): nat { if up then p.up else p.down }
  function TotalOf(x: Usage, up: bool): Total { if up then x.up else x.down }
  function RowOr(rows: map<Key, Pair>, k: Key): Pair { if k in rows then rows[k] else Pair(0, 0) }
  function LossOf(lost: map<UserId, Pair>, u: UserId): Pair { if u in lost then lost[u] else Pair(0, 0) }
  function MoreLost(lost: map<UserId, Pair>, u: UserId, more: Pair): Pair
  {
    Pair(LossOf(lost, u).up + more.up, LossOf(lost, u).down + more.down)
  }

  // ------------------------------------------------------------------ arithmetic

  predicate ValidRate(rate: nat) { rate <= 100000 && rate % 10 == 0 }

  /** WeightedBytes. */
  function Weighted(bytes: nat, rate: nat, rest: nat): Option<(nat, nat)>
  {
    if bytes > COUNTER_LIMIT || !ValidRate(rate) || rest >= 1000 then None
    else
      var whole, fraction := bytes / 1000, (bytes % 1000) * rate + rest;
      if rate > 0 && whole > (COUNTER_LIMIT - fraction / 1000) / rate then None
      else Some((whole * rate + fraction / 1000, fraction % 1000))
  }

  /** Adds `bytes` at `rate` to a total, or fails when a counter would pass its limit. */
  function Charge(t: Total, bytes: nat, rate: nat): Option<Total>
  {
    if t.raw + bytes > COUNTER_LIMIT then None
    else match Weighted(bytes, rate, t.rest)
      case None => None
      case Some((cost, rest)) => if t.quota + cost > COUNTER_LIMIT then None else Some(Total(t.raw + bytes, t.quota + cost, rest))
  }

  /** A row's growth charged to both directions of its member. */
  function ChargeRow(x: Usage, was: Pair, row: Row): Option<Usage>
    requires Within(was, row.bytes)
  {
    match (Charge(x.up, row.bytes.up - was.up, row.key.rule.rate), Charge(x.down, row.bytes.down - was.down, row.key.rule.rate))
    case (Some(up), Some(down)) => Some(x.(up := up, down := down))
    case _ => None
  }

  /** In a new period a member starts without left-over thousandths. */
  function Turn(x: Usage, p: Period): Usage
  {
    if p == x.period then x else Usage(x.metered, p, x.up.(rest := 0), x.down.(rest := 0))
  }

  /** The thousandths a turn drops. */
  function Dropped(x: Usage, p: Period): Pair
  {
    if p == x.period then Pair(0, 0) else Pair(x.up.rest, x.down.rest)
  }

  // ----------------------------------------------------------- what a report means

  /** What one row contributes to a member: bytes, or bytes times rate. */
  function Share(k: Key, bytes: Pair, u: UserId, up: bool, weighted: bool): nat
  {
    if k.user != u then 0 else Direction(bytes, up) * (if weighted then k.rule.rate else 1)
  }

  ghost function Shares(rows: map<Key, Pair>, u: UserId, up: bool, weighted: bool): Key -> int
  {
    k => Share(k, RowOr(rows, k), u, up, weighted)
  }

  ghost function Tally(rows: map<Key, Pair>, u: UserId, up: bool, weighted: bool): int
  {
    Sum(rows.Keys, Shares(rows, u, up, weighted))
  }

  /** A total read as raw bytes, or as thousandths of weighted bytes. */
  function Measure(x: Usage, up: bool, weighted: bool): nat
  {
    var t := TotalOf(x, up);
    if weighted then 1000 * t.quota + t.rest else t.raw
  }

  predicate Sound(x: Usage, up: bool)
  {
    var t := TotalOf(x, up);
    t.raw <= COUNTER_LIMIT && t.quota <= COUNTER_LIMIT && t.rest < 1000
  }

  /** The baseline counts once at rate 1, the rows at their own rates; what turns of the period
      dropped is missing from the weighted total. */
  ghost predicate AccountedIn(x: Usage, base: Pair, rows: map<Key, Pair>, lost: Pair, u: UserId, up: bool, weighted: bool)
  {
    Measure(x, up, weighted) + (if weighted then Direction(lost, up) else 0)
    == Direction(base, up) * (if weighted then 1000 else 1) + Tally(rows, u, up, weighted)
  }

  ghost predicate Accounted(x: Usage, base: Pair, rows: map<Key, Pair>, lost: Pair, u: UserId)
  {
    && x.metered && Sound(x, true) && Sound(x, false)
    && AccountedIn(x, base, rows, lost, u, true, true) && AccountedIn(x, base, rows, lost, u, true, false)
    && AccountedIn(x, base, rows, lost, u, false, true) && AccountedIn(x, base, rows, lost, u, false, false)
  }

  // ------------------------------------------------------------------------- state

  /** The child's members with their baselines and totals, its rows, what was acknowledged, and the
      rules of nodes it ever got; the rule of a node that is gone still serves to settle it. `lost`
      records what turns of the period dropped; nothing reads it. */
  datatype Child = Child(base: map<UserId, Pair>, meters: map<UserId, Usage>, rows: map<Key, Pair>, acks: map<Key, Pair>,
                         policy: set<(NodeId, Rule)>, lost: map<UserId, Pair>)

  /** What the controller holds of the site, with the rules and periods it ever sent there. */
  datatype Control = Control(usage: map<UserId, Usage>, baseline: map<UserId, Pair>, rows: map<Key, Pair>,
                             rules: set<(NodeId, Rule)>, periods: set<(UserId, Period)>, lost: map<UserId, Pair>)

  datatype Heartbeat = Heartbeat(usage: map<UserId, Usage>, baseline: map<UserId, Pair>, rows: seq<Row>)

  /** `at` and `lost` record the child's rows and losses when it asked; nothing reads them. */
  datatype Link =
    | Idle
    | Asked(report: Heartbeat, at: map<Key, Pair>, lost: map<UserId, Pair>)
    | Answered(rows: seq<Row>, members: map<UserId, Period>, nodes: map<NodeId, Rule>)

  datatype State = State(child: Child, control: Control, link: Link)

  /** Not acknowledged in full. */
  predicate Pending(rows: map<Key, Pair>, acks: map<Key, Pair>, k: Key)
  {
    k in rows && (k !in acks || rows[k].up > acks[k].up || rows[k].down > acks[k].down)
  }

  function KeysOf(rows: seq<Row>): set<Key>
  {
    set i | 0 <= i < |rows| :: rows[i].key
  }

  ghost predicate Distinct(rows: seq<Row>)
  {
    forall i, j :: 0 <= i < j < |rows| ==> rows[i].key != rows[j].key
  }

  /** pendingNodeUsage: every pending row once. */
  ghost predicate Listing(rows: seq<Row>, table: map<Key, Pair>, acks: map<Key, Pair>)
  {
    && Distinct(rows)
    && (forall i :: 0 <= i < |rows| ==> Pending(table, acks, rows[i].key) && rows[i].bytes == table[rows[i].key])
    && (forall k :: Pending(table, acks, k) ==> k in KeysOf(rows))
  }

  /** ackBusinessUsage: None refuses the whole acknowledgement. */
  function Acknowledge(acks: map<Key, Pair>, table: map<Key, Pair>, rows: seq<Row>): Option<map<Key, Pair>>
    decreases |rows|
  {
    if rows == [] then Some(acks)
    else
      var row := rows[|rows| - 1];
      match Acknowledge(acks, table, rows[..|rows| - 1])
      case None => None
      case Some(m) =>
        if row.key !in table || !Within(row.bytes, table[row.key]) then None
        else if row.key !in m || Within(m[row.key], row.bytes) then Some(m[row.key := row.bytes])
        else Some(m)
  }

  // ------------------------------------------------------------------ sizes in bytes

  function Digits(n: nat): (d: nat)
    ensures d >= 1
  {
    if n < 10 then 1 else 1 + Digits(n / 10)
  }

  /** One row in JSON: names and punctuation, strings that need no escaping, decimal numbers. */
  function RowBytes(k: Key, bytes: Pair): nat
  {
    95 + Digits(k.user) + |k.node| + |k.period| + |k.rule.revision| + Digits(k.rule.rate) + Digits(bytes.up) + Digits(bytes.down)
  }

  /** The rows of a list, each with a separator. */
  function RowsBytes(rows: seq<Row>): nat
    decreases |rows|
  {
    if rows == [] then 0
    else RowsBytes(rows[..|rows| - 1]) + RowBytes(rows[|rows| - 1].key, rows[|rows| - 1].bytes) + 1
  }

  /** A list under its name is left out when it is empty. */
  function UsageBytes(rows: seq<Row>): nat { if rows == [] then 0 else 15 + RowsBytes(rows) }
  function AckBytes(rows: seq<Row>): nat { if rows == [] then 0 else 14 + RowsBytes(rows) }

  /** The least a report holds apart from its rows: a fixed part, and a total and a baseline for every
      member. */
  function LeastEnvelope(members: nat): nat { 90 + 111 * members }

  // ------------------------------------------------------------------ verification

  function Known(usage: map<UserId, Usage>, u: UserId): Usage { if u in usage then usage[u] else Nothing }

  /** Raw bytes stand for weighted bytes while the controller has only an aggregate. */
  function Opening(x: Usage): Usage
  {
    if x.metered then x else Usage(true, "", Total(x.up.raw, x.up.raw, 0), Total(x.down.raw, x.down.raw, 0))
  }

  function FromBase(base: Pair, p: Period): Usage
  {
    Usage(true, p, Total(base.up, base.up, 0), Total(base.down, base.down, 0))
  }

  /** Where the recomputation of member `u` starts, before its period is looked at. */
  function BaseOf(v: Control, h: Heartbeat, u: UserId): Option<Usage>
  {
    if u !in h.baseline || h.baseline[u].up > COUNTER_LIMIT || h.baseline[u].down > COUNTER_LIMIT then None
    else
      var was, base := Known(v.usage, u), h.baseline[u];
      if u in v.baseline then if v.baseline[u] == base then Some(Opening(was)) else None
      else if was.metered then if base == Pair(0, 0) then Some(was) else None
      else if base.up < was.up.raw || base.down < was.down.raw then None
      else Some(FromBase(base, ""))
  }

  predicate Metered(v: Control, u: UserId) { u in v.usage && v.usage[u].metered }

  /** A member metered before may report under a new period once that period was sent. */
  predicate PeriodFine(v: Control, u: UserId, p: Period)
  {
    Metered(v, u) && v.usage[u].period != p ==> (u, p) in v.periods
  }

  /** Where the recomputation of member `u` starts. */
  function StartOf(v: Control, h: Heartbeat, u: UserId): Option<Usage>
    requires u in h.usage
  {
    if !h.usage[u].metered || !PeriodFine(v, u, h.usage[u].period) then None
    else match BaseOf(v, h, u)
      case None => None
      case Some(x) => Some(Turn(x, h.usage[u].period))
  }

  /** A row's rule and period were sent to the site. */
  predicate Issued(v: Control, k: Key)
  {
    (k.node, k.rule) in v.rules && (k.user, k.period) in v.periods
  }

  predicate RowFine(v: Control, sums: map<UserId, Usage>, row: Row)
  {
    Issued(v, row.key) && Within(RowOr(v.rows, row.key), row.bytes) && row.key.user in sums
  }

  /** The recomputed totals after the given rows, unless one of them is refused. */
  function Recompute(v: Control, sums: map<UserId, Usage>, rows: seq<Row>): Option<map<UserId, Usage>>
    decreases |rows|
  {
    if rows == [] then Some(sums)
    else
      var row := rows[|rows| - 1];
      match Recompute(v, sums, rows[..|rows| - 1])
      case None => None
      case Some(m) =>
        if row.key in KeysOf(rows[..|rows| - 1]) || !RowFine(v, m, row) then None
        else (match ChargeRow(m[row.key.user], RowOr(v.rows, row.key), row)
              case None => None
              case Some(x) => Some(m[row.key.user := x]))
  }

  function Starts(v: Control, h: Heartbeat): map<UserId, Usage>
    requires forall u :: u in h.usage ==> StartOf(v, h, u).Some?
  {
    map u | u in h.usage :: StartOf(v, h, u).value
  }

  /** verifyBusinessMeter. */
  predicate Verified(v: Control, h: Heartbeat)
  {
    && |h.rows| <= MAX_ROWS
    && (forall u :: u in h.usage ==> StartOf(v, h, u).Some?)
    && Recompute(v, Starts(v, h), h.rows) == Some(h.usage)
  }

  /** The metering checks of a heartbeat. */
  predicate Accepted(v: Control, h: Heartbeat) { |h.usage| <= MAX_USERS && Verified(v, h) }

  // ------------------------------------------------------------------------ events

  /** `envelope` and `other` are the bytes of a request and of a reply apart from the rows; `elsewhere`
      stands for the checks of a heartbeat that do not concern metering; `applied` tells whether the
      child gets as far as replacing its records by those of the policy. A later rollback gives the
      members back their authorization, not their period and counters. */
  datatype Event =
    | Collect(k: Key, up: bool, bytes: nat)
    | Ask(rows: seq<Row>, envelope: nat)
    | Serve(elsewhere: bool, members: map<UserId, Period>, nodes: map<NodeId, Rule>, other: nat)
    | Deliver(applied: bool)
    | Lose

  function AddTo(p: Pair, up: bool, bytes: nat): Pair
  {
    if up then p.(up := p.up + bytes) else p.(down := p.down + bytes)
  }

  function WithTotal(x: Usage, up: bool, t: Total): Usage { if up then x.(up := t) else x.(down := t) }

  /** One core counter's growth on the child. */
  function CollectAt(c: Child, k: Key, up: bool, bytes: nat): Child
    requires k.user in c.meters
  {
    match Charge(TotalOf(c.meters[k.user], up), bytes, k.rule.rate)
    case None => c
    case Some(t) => c.(meters := c.meters[k.user := WithTotal(c.meters[k.user], up, t)],
                       rows := c.rows[k := AddTo(RowOr(c.rows, k), up, bytes)])
  }

  function Table(rows: map<Key, Pair>, reported: seq<Row>): map<Key, Pair>
    decreases |reported|
  {
    if reported == [] then rows
    else Table(rows, reported[..|reported| - 1])[reported[|reported| - 1].key := reported[|reported| - 1].bytes]
  }

  /** What the controller drops when it starts member `u` in the reported period. */
  function Forgets(v: Control, u: UserId, p: Period): Pair
  {
    if Metered(v, u) then Dropped(v.usage[u], p) else Pair(0, 0)
  }

  function LossAfter(v: Control, h: Heartbeat, u: UserId): Pair
    requires u in h.usage
  {
    MoreLost(v.lost, u, Forgets(v, u, h.usage[u].period))
  }

  function BookedBaseline(v: Control, h: Heartbeat): map<UserId, Pair>
  {
    v.baseline + (map u | u in h.usage && u in h.baseline :: h.baseline[u])
  }

  function BookedLosses(v: Control, h: Heartbeat): map<UserId, Pair>
  {
    v.lost + (map u | u in h.usage :: LossAfter(v, h, u))
  }

  /** What an accepted heartbeat leaves with the controller. */
  function Book(v: Control, h: Heartbeat): Control
  {
    Control(v.usage + h.usage, BookedBaseline(v, h), Table(v.rows, h.rows), v.rules, v.periods, BookedLosses(v, h))
  }

  /** businessSnapshot: the periods and rules that go out with a policy are noted first. */
  function Note(v: Control, members: map<UserId, Period>, nodes: map<NodeId, Rule>): Control
  {
    v.(periods := v.periods + members.Items, rules := v.rules + nodes.Items)
  }

  /** Member `u` under a policy: new with nothing metered, or in the policy's period. */
  function Placed(c: Child, u: UserId, p: Period): Usage
  {
    if u in c.meters then Turn(c.meters[u], p) else FromBase(Pair(0, 0), p)
  }

  function LostBy(c: Child, u: UserId, p: Period): Pair
  {
    if u in c.meters then MoreLost(c.lost, u, Dropped(c.meters[u], p)) else LossOf(c.lost, u)
  }

  function AppliedBase(c: Child, members: map<UserId, Period>): map<UserId, Pair>
  {
    (map u | u in members :: Pair(0, 0)) + c.base
  }

  function AppliedMeters(c: Child, members: map<UserId, Period>): map<UserId, Usage>
  {
    c.meters + (map u | u in members :: Placed(c, u, members[u]))
  }

  function AppliedLosses(c: Child, members: map<UserId, Period>): map<UserId, Pair>
  {
    c.lost + (map u | u in members :: LostBy(c, u, members[u]))
  }

  /** applyBusinessSnapshot: whoever is not in the policy is retired, and stays. */
  function Apply(c: Child, members: map<UserId, Period>, nodes: map<NodeId, Rule>): Child
  {
    Child(AppliedBase(c, members), AppliedMeters(c, members), c.rows, c.acks, c.policy + nodes.Items, AppliedLosses(c, members))
  }

  /** An accepted report is booked whether or not the child can read the reply. */
  function Answer(s: State, h: Heartbeat, members: map<UserId, Period>, nodes: map<NodeId, Rule>, other: nat): State
  {
    State(s.child, Note(Book(s.control, h), members, nodes),
          if other + AckBytes(h.rows) <= MAX_BYTES then Answered(h.rows, members, nodes) else Idle)
  }

  function Report(c: Child, rows: seq<Row>): Heartbeat { Heartbeat(c.meters, c.base, rows) }

  function Step(s: State, e: Event): State
  {
    match e
    case Collect(k, up, bytes) => if k.user in s.child.meters then s.(child := CollectAt(s.child, k, up, bytes)) else s
    case Ask(rows, envelope) =>
      if s.link.Idle? && envelope + UsageBytes(rows) <= MAX_BYTES
        then s.(link := Asked(Report(s.child, rows), s.child.rows, s.child.lost))
      else s
    case Serve(elsewhere, members, nodes, other) =>
      if !s.link.Asked? then s
      else if elsewhere && Accepted(s.control, s.link.report) then Answer(s, s.link.report, members, nodes, other)
      else s.(link := Idle)
    case Deliver(applied) =>
      if !s.link.Answered? then s
      else (match Acknowledge(s.child.acks, s.child.rows, s.link.rows)
            case None => s.(link := Idle)
            case Some(m) =>
              var c := s.child.(acks := m);
              State(if applied then Apply(c, s.link.members, s.link.nodes) else c, s.control, Idle))
    case Lose => s.(link := Idle)
  }

  predicate RuleFits(n: NodeId, r: Rule)
  {
    0 < |n| <= MAX_NODE_ID && 0 < |r.revision| <= MAX_REVISION && ValidRate(r.rate) && !r.package
  }

  predicate NodesFit(nodes: map<NodeId, Rule>)
  {
    && |nodes| <= MAX_NODES && VLESS_MAIN in nodes && HY2_MAIN in nodes
    && forall n :: n in nodes ==> RuleFits(n, nodes[n])
  }

  predicate MembersFit(members: map<UserId, Period>)
  {
    |members| <= MAX_GRANTS && forall u :: u in members ==> u > 0 && |members[u]| <= MAX_PERIOD
  }

  /** The child meters a member in its period, under a rule it got for the node or under the rule of the
      member's package. It reports what is pending, with a total and a baseline for every
      member it ever had. */
  ghost predicate Allowed(s: State, e: Event)
  {
    match e
    case Collect(k, _, _) =>
      && k.user in s.child.meters && k.period == s.child.meters[k.user].period
      && ((k.node, k.rule) in s.child.policy
          || (k.rule.package && ValidRate(k.rule.rate) && exists r :: (k.node, r) in s.child.policy))
    case Ask(rows, envelope) => Listing(rows, s.child.rows, s.child.acks) && envelope >= LeastEnvelope(|s.child.meters|)
    case Serve(_, members, nodes, _) => MembersFit(members) && NodesFit(nodes)
    case _ => true
  }

  /** A site metered by aggregates before: a member's counters so far are its baseline, and the
      controller's aggregate does not exceed them. Nothing is metered by row yet. */
  ghost predicate Init(s: State)
  {
    && s.child.base.Keys == s.child.meters.Keys && s.child.rows == map[] && s.child.acks == map[]
    && s.child.policy == {} && s.child.lost == map[]
    && s.control.baseline == map[] && s.control.rows == map[] && s.control.rules == {} && s.control.lost == map[]
    && s.link == Idle
    && (forall u :: u in s.child.meters ==> LegacyMember(s, u))
    && (forall u :: u in s.control.usage ==> !s.control.usage[u].metered && u in s.child.meters)
  }

  ghost predicate LegacyMember(s: State, u: UserId)
    requires u in s.child.meters && u in s.child.base
  {
    var base, was := s.child.base[u], Known(s.control.usage, u);
    && u > 0 && |s.child.meters[u].period| <= MAX_PERIOD && base.up <= COUNTER_LIMIT && base.down <= COUNTER_LIMIT
    && s.child.meters[u] == FromBase(base, s.child.meters[u].period)
    && (u, s.child.meters[u].period) in s.control.periods
    && was.up.raw <= base.up && was.down.raw <= base.down
  }

  ghost predicate Reaches(s: State, es: seq<Event>, t: State)
    decreases |es|
  {
    if es == [] then s == t else Allowed(s, es[0]) && Reaches(Step(s, es[0]), es[1..], t)
  }
}
