/** Raw traffic counters of all members on a controller, fed by local use and by the cumulative
    totals of many sites: accepted, replayed and rejected heartbeats. */
module Traffic {
  import opened Common
  import opened Sums

  type UserId = nat
  type SiteId = nat

  datatype Field = Up | Down | Vless | Hy2

  datatype Counters = Counters(up: int, down: int, vless: int, hy2: int)
  {
    function Get(f: Field): int { match f case Up => up case Down => down case Vless => vless case Hy2 => hy2 }
    predicate Natural() { 0 <= up && 0 <= down && 0 <= vless && 0 <= hy2 }
    predicate Limited() { up <= COUNTER_LIMIT && down <= COUNTER_LIMIT && vless <= COUNTER_LIMIT && hy2 <= COUNTER_LIMIT }
    /** Both splits of the traffic, by direction and by protocol, give the same total. */
    predicate Balanced() { up + down == vless + hy2 }
  }

  const Zero := Counters(0, 0, 0, 0)

  function Plus(a: Counters, b: Counters): Counters { Counters(a.up + b.up, a.down + b.down, a.vless + b.vless, a.hy2 + b.hy2) }
  function Minus(a: Counters, b: Counters): Counters { Counters(a.up - b.up, a.down - b.down, a.vless - b.vless, a.hy2 - b.hy2) }

  /** A site's watermarks, and the members it may report for the first time. */
  datatype Site = Site(usage: map<UserId, Counters>, entitled: set<UserId>)
  datatype State = State(users: map<UserId, Counters>, sites: map<SiteId, Site>, next: UserId)

  function Mark(v: Site, u: UserId): Counters { if u in v.usage then v.usage[u] else Zero }

  // ------------------------------------------------------------------ one heartbeat

  /** The checks on one reported member. */
  predicate LineFine(users: map<UserId, Counters>, v: Site, id: UserId, next: Counters)
  {
    var d := Minus(next, Mark(v, id));
    && id > 0 && next.Natural() && next.Limited() && next.Balanced()
    && (id in v.usage || id in v.entitled)
    && d.Natural()
    && (id in users && (d.up > 0 || d.down > 0)
        ==> users[id].up <= COUNTER_LIMIT - d.up && users[id].down <= COUNTER_LIMIT - d.down)
  }

  function Charged(users: map<UserId, Counters>, v: Site, id: UserId, next: Counters): Counters
    requires id in users
  {
    var d := Minus(next, Mark(v, id));
    if d.up == 0 && d.down == 0 then users[id] else Plus(users[id], d)
  }

  /** acceptBusinessUsage: every line or none. */
  function Accept(users: map<UserId, Counters>, v: Site, report: map<UserId, Counters>): Option<(map<UserId, Counters>, Site)>
  {
    if forall id :: id in report ==> LineFine(users, v, id, report[id])
    then Some((map id | id in users :: if id in report then Charged(users, v, id, report[id]) else users[id], v.(usage := v.usage + report)))
    else None
  }

  // ------------------------------------------------------------------ runs

  /** `elsewhere` stands for the checks of a heartbeat outside this module. User ids are never reused. */
  datatype Event =
    | UseLocally(u: UserId, d: Counters)
    | Heartbeat(site: SiteId, report: map<UserId, Counters>, elsewhere: bool)
    | Assign(site: SiteId, entitled: set<UserId>)
    | Delete(u: UserId)
    | Create

  function Step(s: State, e: Event): State
  {
    match e
    case UseLocally(u, d) => if u in s.users then s.(users := s.users[u := Plus(s.users[u], d)]) else s
    case Heartbeat(i, report, elsewhere) =>
      if i !in s.sites || !elsewhere then s
      else (match Accept(s.users, s.sites[i], report)
            case None => s
            case Some((users, v)) => s.(users := users, sites := s.sites[i := v]))
    case Assign(i, entitled) => if i in s.sites then s.(sites := s.sites[i := s.sites[i].(entitled := entitled)]) else s
    case Delete(u) => s.(users := s.users - {u})
    case Create => s.(users := s.users[s.next := Zero], next := s.next + 1)
  }

  predicate Allowed(s: State, e: Event)
  {
    match e
    case UseLocally(u, d) =>
      && d.Natural() && d.Balanced()
      && (u in s.users ==> s.users[u].up + d.up <= COUNTER_LIMIT && s.users[u].down + d.down <= COUNTER_LIMIT)
    case _ => true
  }

  ghost predicate Reaches(s: State, es: seq<Event>, t: State)
    decreases |es|
  {
    if es == [] then s == t else Allowed(s, es[0]) && Reaches(Step(s, es[0]), es[1..], t)
  }

  predicate SiteFine(v: Site)
  {
    forall u :: u in v.usage ==> v.usage[u].Natural() && v.usage[u].Balanced()
  }

  predicate Valid(s: State)
  {
    && (forall i :: i in s.sites ==> SiteFine(s.sites[i]))
    && (forall u :: u in s.users ==> u < s.next && s.users[u].Natural() && s.users[u].Balanced()
                                     && s.users[u].up <= COUNTER_LIMIT && s.users[u].down <= COUNTER_LIMIT)
  }

  /** What the local core adds to member `u` over a run. */
  ghost function LocalUse(s: State, es: seq<Event>, u: UserId, f: Field): int
    decreases |es|
  {
    if es == [] then 0
    else (if es[0].UseLocally? && es[0].u == u && u in s.users then es[0].d.Get(f) else 0) + LocalUse(Step(s, es[0]), es[1..], u, f)
  }

  ghost function MarkGrowth(s: State, t: State, u: UserId, f: Field): SiteId -> int
  {
    i => if i in s.sites && i in t.sites then Mark(t.sites[i], u).Get(f) - Mark(s.sites[i], u).Get(f) else 0
  }

  ghost function SiteGrowth(s: State, t: State, u: UserId, f: Field): int
  {
    Sum(s.sites.Keys, MarkGrowth(s, t, u, f))
  }

  // ------------------------------------------------------------------ one step

  lemma NoGrowth(s: State, t: State, u: UserId, f: Field)
    requires forall i :: i in s.sites ==> i in t.sites && Mark(t.sites[i], u) == Mark(s.sites[i], u)
    ensures SiteGrowth(s, t, u, f) == 0
  {
    SumSubset(s.sites.Keys, {}, MarkGrowth(s, t, u, f));
  }

  /** A balanced report without new traffic in either direction has none in either protocol. */
  lemma NoDirectionNoProtocol(a: Counters, b: Counters)
    requires a.Balanced() && b.Balanced() && Minus(b, a).Natural() && b.up == a.up && b.down == a.down
    ensures a == b
  {
  }

  lemma HeartbeatGrowth(s: State, i: SiteId, report: map<UserId, Counters>, u: UserId, f: Field)
    requires Valid(s) && i in s.sites && Accept(s.users, s.sites[i], report).Some?
    ensures var t := Step(s, Heartbeat(i, report, true));
            && SiteGrowth(s, t, u, f) == Mark(t.sites[i], u).Get(f) - Mark(s.sites[i], u).Get(f)
            && (u in s.users ==> u in t.users && t.users[u].Get(f) == s.users[u].Get(f) + SiteGrowth(s, t, u, f))
  {
    var t := Step(s, Heartbeat(i, report, true));
    SumSubset(s.sites.Keys, {i}, MarkGrowth(s, t, u, f));
    SumRemove({i}, MarkGrowth(s, t, u, f), i);
    assert {i} - {i} == {};
    if u in report {
      assert LineFine(s.users, s.sites[i], u, report[u]);
      if report[u].up == Mark(s.sites[i], u).up && report[u].down == Mark(s.sites[i], u).down {
        NoDirectionNoProtocol(Mark(s.sites[i], u), report[u]);
      }
    }
  }

  lemma StepConserves(s: State, e: Event, u: UserId, f: Field)
    requires Valid(s) && Allowed(s, e) && u in s.users && u in Step(s, e).users
    ensures Step(s, e).users[u].Get(f)
            == s.users[u].Get(f) + (if e.UseLocally? && e.u == u then e.d.Get(f) else 0) + SiteGrowth(s, Step(s, e), u, f)
  {
    match e
    case Heartbeat(i, report, elsewhere) =>
      if i in s.sites && elsewhere && Accept(s.users, s.sites[i], report).Some? {
        HeartbeatGrowth(s, i, report, u, f);
      } else {
        NoGrowth(s, Step(s, e), u, f);
      }
    case _ => NoGrowth(s, Step(s, e), u, f);
  }

  lemma AcceptKeepsUser(s: State, i: SiteId, report: map<UserId, Counters>, u: UserId)
    requires Valid(s) && i in s.sites && Accept(s.users, s.sites[i], report).Some? && u in s.users
    ensures var x := Accept(s.users, s.sites[i], report).value.0[u];
            x.Natural() && x.Balanced() && x.up <= COUNTER_LIMIT && x.down <= COUNTER_LIMIT
  {
    if u in report {
      assert LineFine(s.users, s.sites[i], u, report[u]);
    }
  }

  lemma StepKeepsValid(s: State, e: Event)
    requires Valid(s) && Allowed(s, e)
    ensures Valid(Step(s, e)) && Step(s, e).sites.Keys == s.sites.Keys && s.next <= Step(s, e).next
  {
    if e.Heartbeat? && e.site in s.sites && e.elsewhere && Accept(s.users, s.sites[e.site], e.report).Some? {
      forall u | u in s.users { AcceptKeepsUser(s, e.site, e.report, u); }
    }
  }

  // ------------------------------------------------------------------ whole runs

  lemma SiteGrowthSplits(s: State, m: State, t: State, u: UserId, f: Field)
    requires s.sites.Keys == m.sites.Keys == t.sites.Keys
    ensures SiteGrowth(s, t, u, f) == SiteGrowth(s, m, u, f) + SiteGrowth(m, t, u, f)
  {
    SumPlus(s.sites.Keys, MarkGrowth(s, m, u, f), MarkGrowth(m, t, u, f), MarkGrowth(s, t, u, f));
  }

  lemma {:induction false} RunKeepsValid(s: State, es: seq<Event>, t: State)
    requires Valid(s) && Reaches(s, es, t)
    ensures Valid(t) && t.sites.Keys == s.sites.Keys && s.next <= t.next
    decreases |es|
  {
    if es != [] {
      StepKeepsValid(s, es[0]);
      RunKeepsValid(Step(s, es[0]), es[1..], t);
    }
  }

  /** A deleted id never comes back. */
  lemma {:induction false} GoneStaysGone(s: State, es: seq<Event>, t: State, u: UserId)
    requires Valid(s) && Reaches(s, es, t) && u < s.next && u !in s.users
    ensures u !in t.users
    decreases |es|
  {
    if es != [] {
      StepKeepsValid(s, es[0]);
      GoneStaysGone(Step(s, es[0]), es[1..], t, u);
    }
  }

  /** Conservation: over any mix of accepted, repeated and rejected heartbeats, each counter of a
      surviving member grows by its local use plus the growth of every site's watermark. */
  lemma {:induction false} CountersAreConserved(s: State, es: seq<Event>, t: State, u: UserId, f: Field)
    requires Valid(s) && Reaches(s, es, t) && u in s.users && u in t.users
    ensures t.users[u].Get(f) == s.users[u].Get(f) + LocalUse(s, es, u, f) + SiteGrowth(s, t, u, f)
    decreases |es|
  {
    if es == [] {
      NoGrowth(s, t, u, f);
    } else {
      var m := Step(s, es[0]);
      StepKeepsValid(s, es[0]);
      RunKeepsValid(m, es[1..], t);
      if u !in m.users {
        GoneStaysGone(m, es[1..], t, u);
      } else {
        StepConserves(s, es[0], u, f);
        CountersAreConserved(m, es[1..], t, u, f);
        SiteGrowthSplits(s, m, t, u, f);
      }
    }
  }

  /** Watermarks only grow. */
  lemma {:induction false} WatermarksGrow(s: State, es: seq<Event>, t: State, i: SiteId, u: UserId)
    requires Valid(s) && Reaches(s, es, t) && i in s.sites
    ensures i in t.sites && Minus(Mark(t.sites[i], u), Mark(s.sites[i], u)).Natural()
    decreases |es|
  {
    if es != [] {
      var m := Step(s, es[0]);
      StepKeepsValid(s, es[0]);
      if es[0].Heartbeat? && es[0].site == i && u in es[0].report && Accept(s.users, s.sites[i], es[0].report).Some? {
        assert LineFine(s.users, s.sites[i], u, es[0].report[u]);
      }
      WatermarksGrow(m, es[1..], t, i, u);
    }
  }

  /** A repeated report is accepted again and adds nothing. */
  lemma ReplayAddsNothing(s: State, i: SiteId, report: map<UserId, Counters>)
    requires Valid(s) && i in s.sites && Accept(s.users, s.sites[i], report).Some?
    ensures var t := Step(s, Heartbeat(i, report, true));
            Accept(t.users, t.sites[i], report) == Some((t.users, t.sites[i]))
  {
    var t := Step(s, Heartbeat(i, report, true));
    forall id | id in report ensures LineFine(t.users, t.sites[i], id, report[id]) && Mark(t.sites[i], id) == report[id] {
      assert LineFine(s.users, s.sites[i], id, report[id]);
    }
    assert t.sites[i].usage + report == t.sites[i].usage;
    assert forall id :: id in t.users && id in report ==> Charged(t.users, t.sites[i], id, report[id]) == t.users[id];
    assert Accept(t.users, t.sites[i], report).value.0 == t.users;
  }

  /** A line of a report that can be booked: a possible reading of a member the site has or may have, behind
      none of its watermarks, that leaves a surviving member within the limit. */
  predicate Bookable(s: State, i: SiteId, id: UserId, r: Counters)
    requires i in s.sites
  {
    var m := Mark(s.sites[i], id);
    && id != 0
    && 0 <= m.up <= r.up <= COUNTER_LIMIT && 0 <= m.down <= r.down <= COUNTER_LIMIT
    && 0 <= m.vless <= r.vless <= COUNTER_LIMIT && 0 <= m.hy2 <= r.hy2 <= COUNTER_LIMIT
    && r.up + r.down == r.vless + r.hy2
    && (id in s.sites[i].usage || id in s.sites[i].entitled)
    && (id in s.users ==> s.users[id].up + r.up - m.up <= COUNTER_LIMIT && s.users[id].down + r.down - m.down <= COUNTER_LIMIT)
  }

  lemma MarkFine(s: State, i: SiteId, id: UserId)
    requires Valid(s) && i in s.sites
    ensures Mark(s.sites[i], id).Natural() && Mark(s.sites[i], id).Balanced()
  {
    assert SiteFine(s.sites[i]);
  }

  lemma BookableIsFine(s: State, i: SiteId, id: UserId, r: Counters)
    requires Valid(s) && i in s.sites
    ensures LineFine(s.users, s.sites[i], id, r) <==> Bookable(s, i, id, r)
  {
    MarkFine(s, i, id);
  }

  /** In every reachable state a heartbeat is accepted if and only if every line of it can be booked; then each
      line is the site's new watermark, and its growth is added to every surviving member. Otherwise nothing
      changes. */
  lemma AcceptedExactlyWhen(s: State, es: seq<Event>, t: State, i: SiteId, report: map<UserId, Counters>)
    requires Valid(s) && Reaches(s, es, t) && i in t.sites
    ensures var u := Step(t, Heartbeat(i, report, true));
            if forall id :: id in report ==> Bookable(t, i, id, report[id]) then
              && u.sites == t.sites[i := Site(t.sites[i].usage + report, t.sites[i].entitled)]
              && u.next == t.next && u.users.Keys == t.users.Keys
              && forall id :: id in t.users ==>
                   u.users[id] == if id in report then Plus(t.users[id], Minus(report[id], Mark(t.sites[i], id))) else t.users[id]
            else u == t
  {
    RunKeepsValid(s, es, t);
    forall id | id in report ensures LineFine(t.users, t.sites[i], id, report[id]) <==> Bookable(t, i, id, report[id]) {
      BookableIsFine(t, i, id, report[id]);
    }
    forall id | id in report && id in t.users && Bookable(t, i, id, report[id])
      ensures Charged(t.users, t.sites[i], id, report[id]) == Plus(t.users[id], Minus(report[id], Mark(t.sites[i], id)))
    {
      MarkFine(t, i, id);
      if report[id].up == Mark(t.sites[i], id).up && report[id].down == Mark(t.sites[i], id).down {
        NoDirectionNoProtocol(Mark(t.sites[i], id), report[id]);
      }
    }
  }

  // ------------------------------------------------------------------ the transaction

  /** The member and the watermark of line `id` after it was booked. */
  ghost predicate Booked(users: map<UserId, Counters>, v: Site, report: map<UserId, Counters>, done: set<UserId>,
                         accounts: map<UserId, Counters>, usage: map<UserId, Counters>)
  {
    && accounts.Keys == users.Keys && usage.Keys == v.usage.Keys + done && done <= report.Keys
    && (forall id :: id in users ==> accounts[id] == if id in done then Charged(users, v, id, report[id]) else users[id])
    && (forall id :: id in usage ==> usage[id] == if id in done then report[id] else v.usage[id])
  }

  lemma BookedAll(users: map<UserId, Counters>, v: Site, report: map<UserId, Counters>,
                  accounts: map<UserId, Counters>, usage: map<UserId, Counters>)
    requires Booked(users, v, report, report.Keys, accounts, usage)
    requires forall id :: id in report ==> LineFine(users, v, id, report[id])
    ensures Accept(users, v, report) == Some((accounts, v.(usage := usage)))
  {
    assert usage == v.usage + report;
    assert accounts == Accept(users, v, report).value.0;
  }

  class TrafficStore {
    var users: map<UserId, Counters>
    var sites: map<SiteId, Site>

    constructor (users: map<UserId, Counters>, sites: map<SiteId, Site>)
      ensures this.users == users && this.sites == sites
    {
      this.users, this.sites := users, sites;
    }

    /** One reported member: its account and its watermark, unless the line is refused. */
    static method BookLine(accounts: map<UserId, Counters>, v: Site, id: UserId, next: Counters)
      returns (ok: bool, account: Counters)
      ensures ok <==> LineFine(accounts, v, id, next)
      ensures ok && id in accounts ==> account == Charged(accounts, v, id, next)
    {
      account := if id in accounts then accounts[id] else Zero;
      var previous := if id in v.usage then v.usage[id] else Zero;
      if id == 0 || !next.Natural() || !next.Limited() || !next.Balanced() {
        return false, account;
      }
      if id !in v.usage && id !in v.entitled {
        return false, account;
      }
      var d := Minus(next, previous);
      if !d.Natural() {
        return false, account;
      }
      if (d.up > 0 || d.down > 0) && id in accounts {
        if account.up > COUNTER_LIMIT - d.up || account.down > COUNTER_LIMIT - d.down {
          return false, account;
        }
        account := Plus(account, d);
      }
      ok := true;
    }

    /** acceptBusinessUsage: the loop over reported members inside one transaction. */
    method AcceptBusinessUsage(site: SiteId, report: map<UserId, Counters>) returns (ok: bool)
      requires site in sites
      modifies this
      ensures match Accept(old(users), old(sites)[site], report)
              case None => !ok && users == old(users) && sites == old(sites)
              case Some((accounts, v)) => ok && users == accounts && sites == old(sites)[site := v]
    {
      var v, was := sites[site], users;
      var accounts, usage := users, v.usage;
      var todo := report.Keys;
      while todo != {}
        invariant todo <= report.Keys && users == was == old(users) && sites == old(sites) && v == old(sites)[site]
        invariant forall id :: id in report.Keys - todo ==> LineFine(was, v, id, report[id])
        invariant Booked(was, v, report, report.Keys - todo, accounts, usage)
      {
        var id :| id in todo;
        var fine, account := BookLine(accounts, v, id, report[id]);
        assert LineFine(was, v, id, report[id]) <==> fine;
        if !fine {
          return false;
        }
        if id in accounts {
          accounts := accounts[id := account];
        }
        usage := usage[id := report[id]];
        assert report.Keys - (todo - {id}) == (report.Keys - todo) + {id};
        todo := todo - {id};
      }
      assert report.Keys - todo == report.Keys;
      BookedAll(was, v, report, accounts, usage);
      users := accounts;
      sites := sites[site := v.(usage := usage)];
      return true;
    }
  }
}
