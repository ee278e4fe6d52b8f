/** Traffic quota of one member shared by a controller and its pull-based child sites: the
    reservations a controller keeps, the ceilings it hands out, and the sync exchange that may
    lose requests and replies. All amounts are weighted bytes of one quota period. */
module QuotaModel {
  import opened Common
  import opened Sums

  type SiteId = nat
  /** The revision hash of a snapshot, injective in what it covers: the member's ceiling, if the
      member is included at all, and everything else. */
  datatype Revision = Blank | Of(grant: Option<nat>, other: nat)

  /** `grant` is the configured site grant; a configured quota of 0 means no site limit. `reported`
      tells whether the site ever reported the member. */
  datatype Site = Site(grant: Option<nat>, reported: bool, usage: nat, issued: Option<nat>, unlimited: bool, sent: Option<nat>, desired: Revision)

  /** The member on a child site: what was consumed there, and the ceiling it enforces, if any. */
  datatype Child = Child(known: bool, meter: nat, ceiling: Option<nat>, applied: Revision)

  /** At most one exchange per child is under way. */
  datatype Link = Idle | Asked(meter: nat, known: bool, applied: Revision) | Answered(grant: Option<nat>, revision: Revision)

  /** `local` is what the controller's own core consumed, `start` what was used at the outset. */
  datatype State = State(quota: nat, start: nat, local: nat, used: nat,
                         sites: map<SiteId, Site>, children: map<SiteId, Child>, links: map<SiteId, Link>)

  function OrZero(x: Option<nat>): nat { if x.Some? then x.value else 0 }
  function Max(a: int, b: int): int { if a <= b then b else a }

  /** siteRuntimeReservation: issued to the site and not reported as used yet. */
  function Reserved(v: Site): nat
  {
    if v.unlimited then 0 else if OrZero(v.issued) > v.usage then OrZero(v.issued) - v.usage else 0
  }

  ghost function ReservedAt(sites: map<SiteId, Site>): SiteId -> int
  {
    i => if i in sites then Reserved(sites[i]) else 0
  }

  ghost function TotalReserved(sites: map<SiteId, Site>, ids: set<SiteId>): int
  {
    Sum(ids, ReservedAt(sites))
  }

  /** businessRemainingQuota: the global allowance left for site `id`. */
  ghost function Remaining(quota: nat, used: nat, sites: map<SiteId, Site>, id: SiteId): int
  {
    if quota == 0 || (exists j :: j in sites && j != id && sites[j].unlimited) then 0
    else Max(0, quota - used - TotalReserved(sites, sites.Keys - {id}))
  }

  datatype Effective = Refused | Withheld | Granted(quota: nat)

  /** effectiveBusinessSnapshotGrant, given the remaining global allowance. */
  function EffectiveGrant(quota: nat, configured: nat, usage: nat, remaining: int): Effective
  {
    if configured > 0 && usage >= configured then Withheld
    else if quota == 0 then Granted(configured)
    else if remaining <= 0 then Withheld
    else if usage + remaining > COUNTER_LIMIT then Refused
    else
      var ceiling := if configured == 0 || configured > usage + remaining then usage + remaining else configured;
      if ceiling <= usage then Withheld else Granted(ceiling)
  }

  // ------------------------------------------------------------- controller steps

  /** What a heartbeat says about the member: its total, or nothing if the child has no such user. */
  datatype Report = Report(meter: nat, known: bool, applied: Revision)

  /** acceptBusinessUsage for this member; None rejects the heartbeat and changes nothing. */
  function Accept(used: nat, v: Site, r: Report): Option<(nat, Site)>
  {
    if r.known && r.meter < v.usage then None
    else if r.known && !v.reported && v.sent.None? && v.issued.None? then None
    else
      var more := if r.known then r.meter - v.usage else 0;
      if used + more > COUNTER_LIMIT then None
      else
        var w := if r.known then v.(usage := r.meter, reported := true) else v;
        if r.applied != Blank && r.applied == v.desired then
          if !r.known && (v.issued.Some? || v.unlimited || v.reported || v.sent.Some?) then None
          else Some((used + more, w.(issued := v.sent, unlimited := v.sent == Some(0))))
        else Some((used + more, w))
  }

  /** businessSnapshot for this member. `included` says whether the site and the member are active
      and granted at all; `other` is the rest of the snapshot's content. */
  function Snapshot(v: Site, g: Option<nat>, other: nat): Site
  {
    v.(desired := Of(g, other), sent := g,
       issued := if g.Some? && g.value > OrZero(v.issued) then g else v.issued,
       unlimited := v.unlimited || g == Some(0))
  }

  // ----------------------------------------------------------------------- events

  /** How the child fares with a policy that arrives: it fails to apply and is rolled back, it is applied,
      or it is applied and only the record of its revision fails. */
  datatype Outcome = Failed | Applied | Unrecorded

  datatype Event =
    | Configure(id: SiteId, grant: Option<nat>)
    | UseLocally(amount: nat)
    | UseAt(id: SiteId, amount: nat)
    | Ask(id: SiteId)
    | Serve(id: SiteId, included: bool, other: nat)
    | Deliver(id: SiteId, outcome: Outcome)
    | Lose(id: SiteId)

  /** What the snapshot for site `id` grants the member. */
  ghost function Offer(quota: nat, used: nat, sites: map<SiteId, Site>, id: SiteId, included: bool): Effective
    requires id in sites
  {
    var v := sites[id];
    if !included || v.grant.None? || (quota > 0 && used >= quota) then Withheld
    else EffectiveGrant(quota, v.grant.value, v.usage, Remaining(quota, used, sites, id))
  }

  /** A new snapshot for site `id`; an arithmetic refusal loses the answer but not the usage booked before. */
  ghost function Answer(s: State, id: SiteId, included: bool, other: nat): State
    requires id in s.sites && id in s.links
  {
    match Offer(s.quota, s.used, s.sites, id, included)
    case Refused => s
    case Withheld =>
      s.(sites := s.sites[id := Snapshot(s.sites[id], None, other)], links := s.links[id := Answered(None, Of(None, other))])
    case Granted(g) =>
      s.(sites := s.sites[id := Snapshot(s.sites[id], Some(g), other)], links := s.links[id := Answered(Some(g), Of(Some(g), other))])
  }

  /** The controller answers the request of site `id`: usage first, then a new snapshot. */
  ghost function ServeRequest(s: State, id: SiteId, included: bool, other: nat): State
    requires id in s.sites && id in s.links && s.links[id].Asked?
  {
    var q := s.links[id];
    var t := s.(links := s.links[id := Idle]);
    match Accept(s.used, s.sites[id], Report(q.meter, q.known, q.applied))
    case None => t
    case Some((used, v)) => Answer(t.(used := used, sites := s.sites[id := v]), id, included, other)
  }

  /** applyBusinessSnapshot for this member; the policy in force is not applied again. */
  function Receive(c: Child, grant: Option<nat>, revision: Revision, outcome: Outcome): Child
  {
    if outcome == Failed || revision == c.applied then c
    else Child(c.known || grant.Some?, c.meter, grant, if outcome == Applied then revision else c.applied)
  }

  ghost function Step(s: State, e: Event): State
  {
    match e
    case Configure(id, g) => if id in s.sites then s.(sites := s.sites[id := s.sites[id].(grant := g)]) else s
    case UseLocally(d) => s.(used := s.used + d, local := s.local + d)
    case UseAt(id, d) => if id in s.children then s.(children := s.children[id := s.children[id].(meter := s.children[id].meter + d)]) else s
    case Ask(id) =>
      if id in s.children && id in s.links && s.links[id] == Idle
      then s.(links := s.links[id := Asked(s.children[id].meter, s.children[id].known, s.children[id].applied)]) else s
    case Serve(id, included, other) =>
      if id in s.sites && id in s.links && s.links[id].Asked? then ServeRequest(s, id, included, other) else s
    case Deliver(id, outcome) =>
      if id in s.children && id in s.links && s.links[id].Answered? then
        s.(children := s.children[id := Receive(s.children[id], s.links[id].grant, s.links[id].revision, outcome)],
           links := s.links[id := Idle])
      else s
    case Lose(id) => if id in s.links then s.(links := s.links[id := Idle]) else s
  }

  /** A policy that grants `g`, applied without its record, can still be withdrawn behind the child's back:
      the recorded one leaves the member out, or grants less than `g` and can be offered again. */
  predicate Exposed(c: Child, g: Option<nat>)
  {
    g.Some? && c.applied != Blank && (c.applied.grant.None? || c.meter < c.applied.grant.value < g.value)
  }

  /** Every core stops at the quota it was given: the local one at the reduced quota of coreRecords,
      a child at its ceiling. An exposed policy does not go unrecorded. */
  ghost predicate Allowed(s: State, e: Event)
  {
    match e
    case UseLocally(d) => s.used + d <= s.quota - TotalReserved(s.sites, s.sites.Keys)
    case UseAt(id, d) => id in s.children && s.children[id].ceiling.Some? && s.children[id].meter + d <= s.children[id].ceiling.value
    case Deliver(id, outcome) =>
      var arrives := id in s.children && id in s.links && s.links[id].Answered?;
      arrives && outcome == Unrecorded ==> !Exposed(s.children[id], s.links[id].grant)
    case _ => true
  }

  ghost predicate Init(s: State)
  {
    && 0 < s.quota <= COUNTER_LIMIT
    && s.local == 0 && s.used == s.start <= s.quota
    && s.children.Keys == s.sites.Keys && s.links.Keys == s.sites.Keys
    && (forall i :: i in s.sites ==>
          && s.sites[i] == Site(s.sites[i].grant, false, 0, None, false, None, Blank)
          && s.children[i] == Child(false, 0, None, Blank)
          && s.links[i] == Idle)
  }

  ghost predicate Reaches(s: State, es: seq<Event>, t: State)
    decreases |es|
  {
    if es == [] then s == t else Allowed(s, es[0]) && Reaches(Step(s, es[0]), es[1..], t)
  }
}
