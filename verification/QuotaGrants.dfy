/** What a site gets, and keeps: the ceiling of each snapshot in terms of the accounts alone, what a served
    request changes, and what a child enforces afterwards. */
module QuotaGrants {
  import opened Common
  import opened Sums
  import opened QuotaModel
  import opened QuotaSafety

  // ------------------------------------------------------------------ the ceiling

  /** Issued to a site and not reported as used yet. */
  function Unreported(v: Site): int
  {
    if v.issued.Some? && v.issued.value > v.usage then v.issued.value - v.usage else 0
  }

  ghost function UnreportedAt(sites: map<SiteId, Site>): SiteId -> int
  {
    i => if i in sites then Unreported(sites[i]) else 0
  }

  /** What all other sites may still use. */
  ghost function Elsewhere(sites: map<SiteId, Site>, id: SiteId): int
  {
    Sum(sites.Keys - {id}, UnreportedAt(sites))
  }

  /** A ceiling within the configured grant, if there is one, under which the quota still holds. */
  ghost predicate Fits(s: State, id: SiteId, configured: nat, ceiling: nat)
    requires id in s.sites
  {
    && (configured == 0 || ceiling <= configured)
    && s.used + Elsewhere(s.sites, id) + Max(0, ceiling - s.sites[id].usage) <= s.quota
  }

  /** The site is below its own grant, and the quota leaves it something. */
  ghost predicate Room(s: State, id: SiteId, configured: nat)
    requires id in s.sites
  {
    (configured == 0 || s.sites[id].usage < configured) && s.used + Elsewhere(s.sites, id) < s.quota
  }

  /** The grant of a snapshot: none, or the largest ceiling that fits. */
  ghost predicate Deserved(s: State, id: SiteId, included: bool, grant: Option<nat>)
    requires id in s.sites
  {
    var v := s.sites[id];
    if included && v.grant.Some? && Room(s, id, v.grant.value)
    then grant.Some? && grant.value > v.usage && Fits(s, id, v.grant.value, grant.value)
         && forall c: nat :: c > grant.value ==> !Fits(s, id, v.grant.value, c)
    else grant == None
  }

  lemma ReservedIsUnreported(s: State, id: SiteId)
    requires Inv(s) && id in s.sites
    ensures TotalReserved(s.sites, s.sites.Keys - {id}) == Elsewhere(s.sites, id)
    ensures s.sites[id].usage <= s.used && 0 <= Elsewhere(s.sites, id)
  {
    forall i | i in s.sites ensures SiteFine(s.sites[i], s.children[i], s.links[i]) {}
    SumCongruence(s.sites.Keys - {id}, ReservedAt(s.sites), UnreportedAt(s.sites));
    SumNonNegative(s.sites.Keys - {id}, UnreportedAt(s.sites));
    SumAtLeast(s.sites.Keys, UsageAt(s.sites), id);
  }

  ghost function GrantOf(e: Effective): Option<nat> { if e.Granted? then Some(e.quota) else None }

  /** What the account and the other sites leave. */
  lemma RemainingIsLeft(s: State, id: SiteId)
    requires Inv(s) && id in s.sites
    ensures Remaining(s.quota, s.used, s.sites, id) == Max(0, s.quota - s.used - Elsewhere(s.sites, id))
    ensures s.sites[id].usage <= s.used && 0 <= Elsewhere(s.sites, id) && 0 < s.quota <= COUNTER_LIMIT
  {
    ReservedIsUnreported(s, id);
    forall j | j in s.sites ensures !s.sites[j].unlimited { assert SiteFine(s.sites[j], s.children[j], s.links[j]); }
  }

  lemma OfferIsDeserved(s: State, id: SiteId, included: bool)
    requires Inv(s) && id in s.sites
    ensures !Offer(s.quota, s.used, s.sites, id, included).Refused?
    ensures Deserved(s, id, included, GrantOf(Offer(s.quota, s.used, s.sites, id, included)))
  {
    RemainingIsLeft(s, id);
    LargestThatFits(s, id, included);
  }

  lemma LargestThatFits(s: State, id: SiteId, included: bool)
    requires id in s.sites && s.sites[id].usage <= s.used && 0 <= Elsewhere(s.sites, id) && 0 < s.quota <= COUNTER_LIMIT
    requires Remaining(s.quota, s.used, s.sites, id) == Max(0, s.quota - s.used - Elsewhere(s.sites, id))
    ensures !Offer(s.quota, s.used, s.sites, id, included).Refused?
    ensures Deserved(s, id, included, GrantOf(Offer(s.quota, s.used, s.sites, id, included)))
  {
  }

  /** In every reachable state: a snapshot grants an included and configured member if and only if the site is
      below its configured grant and the accounts and the other sites leave something; then it grants the
      largest ceiling under which the quota holds. The arithmetic never refuses. */
  lemma SnapshotGrantsLargest(s: State, es: seq<Event>, t: State, id: SiteId, included: bool)
    requires Init(s) && Reaches(s, es, t) && id in t.sites
    ensures !Offer(t.quota, t.used, t.sites, id, included).Refused?
    ensures Deserved(t, id, included, GrantOf(Offer(t.quota, t.used, t.sites, id, included)))
  {
    InitIsInv(s);
    RunKeepsInv(s, es, t);
    OfferIsDeserved(t, id, included);
  }

  /** A member without a quota is granted exactly what the site is configured with, while it is below that. */
  lemma UnlimitedGrant(used: nat, sites: map<SiteId, Site>, id: SiteId, included: bool)
    requires id in sites
    ensures var g := sites[id].grant;
            Offer(0, used, sites, id, included)
            == if included && g.Some? && (g.value == 0 || sites[id].usage < g.value) then Granted(g.value) else Withheld
  {
  }

  // ------------------------------------------------------------------ a served request

  /** The accounts after a report: its growth is booked once, and an acknowledgement of the latest snapshot
      replaces what was issued by what that snapshot sent. */
  ghost predicate Booked(s: State, b: State, id: SiteId)
    requires id in s.sites && id in s.links && s.links[id].Asked? && id in b.sites
  {
    var k, v := s.links[id], s.sites[id];
    var acked := k.applied != Blank && k.applied == v.desired;
    var w := v.(issued := if acked then v.sent else v.issued,
                usage := if k.known then k.meter else v.usage, reported := v.reported || k.known);
    && b.used - w.usage == s.used - v.usage
    && b == s.(used := b.used, sites := s.sites[id := w], links := s.links[id := Idle])
  }

  /** A snapshot is recorded as sent and asked for; what is issued never shrinks by it. */
  ghost predicate Sent(b: State, u: State, id: SiteId, grant: Option<nat>, other: nat)
    requires id in b.sites && id in b.links
  {
    var v := b.sites[id];
    var issued := if grant.Some? && (v.issued.None? || grant.value > v.issued.value) then grant else v.issued;
    u == b.(sites := b.sites[id := v.(issued := issued, sent := grant, desired := Of(grant, other))],
            links := b.links[id := Answered(grant, Of(grant, other))])
  }

  lemma AcceptBooks(s: State, id: SiteId)
    requires Inv(s) && id in s.sites && s.links[id].Asked?
    requires Accept(s.used, s.sites[id], Report(s.links[id].meter, s.links[id].known, s.links[id].applied)).Some?
    ensures var a := Accept(s.used, s.sites[id], Report(s.links[id].meter, s.links[id].known, s.links[id].applied)).value;
            Booked(s, s.(used := a.0, sites := s.sites[id := a.1], links := s.links[id := Idle]), id)
  {
    assert SiteFine(s.sites[id], s.children[id], s.links[id]);
  }

  lemma AnswerSends(b: State, id: SiteId, included: bool, other: nat) returns (grant: Option<nat>)
    requires Inv(b) && id in b.sites && b.links[id] == Idle
    ensures Deserved(b, id, included, grant) && Sent(b, Answer(b, id, included, other), id, grant, other)
  {
    OfferIsDeserved(b, id, included);
    grant := GrantOf(Offer(b.quota, b.used, b.sites, id, included));
    assert SiteFine(b.sites[id], b.children[id], b.links[id]);
  }

  lemma BookedIsInv(t: State, b: State, id: SiteId)
    requires Inv(t) && id in t.sites && t.links[id].Asked?
    requires var a := Accept(t.used, t.sites[id], Report(t.links[id].meter, t.links[id].known, t.links[id].applied));
             a.Some? && b == t.(used := a.value.0, sites := t.sites[id := a.value.1], links := t.links[id := Idle])
    ensures Inv(b)
  {
    assert SiteFine(t.sites[id], t.children[id], t.links[id]);
    RoomForOne(t, id);
    AcceptIsFine(t.used, t.sites[id], t.children[id], t.links[id]);
    AcceptedKeepsInv(t, b, id);
  }

  /** Any report at all, honest or not, is taken exactly if it is not behind, its member was ever given to the site,
      the account stays in range, and it does not acknowledge an allocation it says nothing about. */
  lemma TakenExactlyWhen(used: nat, v: Site, r: Report)
    ensures Accept(used, v, r).Some? <==>
              && (r.known ==> v.usage <= r.meter && (v.reported || v.sent.Some? || v.issued.Some?))
              && used + (if r.known then r.meter - v.usage else 0) <= COUNTER_LIMIT
              && (r.applied != Blank && r.applied == v.desired && !r.known ==> !v.reported && v.sent.None? && v.issued.None? && !v.unlimited)
  {
  }

  ghost function Verdict(s: State, id: SiteId): Option<(nat, Site)>
    requires id in s.sites && id in s.links && s.links[id].Asked?
  {
    Accept(s.used, s.sites[id], Report(s.links[id].meter, s.links[id].known, s.links[id].applied))
  }

  lemma AcceptedIsServed(t: State, id: SiteId, included: bool, other: nat) returns (b: State, grant: Option<nat>)
    requires Inv(t) && id in t.sites && t.links[id].Asked? && Verdict(t, id).Some?
    ensures id in b.sites && id in b.links && Booked(t, b, id) && Deserved(b, id, included, grant)
    ensures Sent(b, ServeRequest(t, id, included, other), id, grant, other)
  {
    var a := Verdict(t, id).value;
    b := t.(used := a.0, sites := t.sites[id := a.1], links := t.links[id := Idle]);
    AcceptBooks(t, id);
    BookedIsInv(t, b, id);
    grant := AnswerSends(b, id, included, other);
  }

  lemma RefusedIsIdle(t: State, id: SiteId, included: bool, other: nat)
    requires id in t.sites && id in t.links && t.links[id].Asked? && Verdict(t, id).None?
    ensures ServeRequest(t, id, included, other) == t.(links := t.links[id := Idle])
  {
  }

  /** The child acknowledges a snapshot without a member that the controller still holds issued to it. */
  predicate Orphaned(s: State, id: SiteId)
    requires id in s.children && id in s.sites
  {
    var c := s.children[id];
    c.applied != Blank && c.applied == s.sites[id].desired && !c.known && s.sites[id].issued.Some?
  }

  /** In every reachable state a request is either refused, which changes nothing but the exchange, or its
      report is booked and answered with the grant the accounts deserve then. */
  lemma RequestIsServed(s: State, es: seq<Event>, t: State, id: SiteId, included: bool, other: nat, u: State)
    returns (b: State, grant: Option<nat>)
    requires Init(s) && Reaches(s, es, t) && id in t.sites && id in t.children && id in t.links && t.links[id].Asked?
    requires u == Step(t, Serve(id, included, other))
    ensures Orphaned(t, id) ==> u == t.(links := t.links[id := Idle])
    ensures !Orphaned(t, id) ==>
              id in b.sites && id in b.links && Booked(t, b, id) && Deserved(b, id, included, grant) && Sent(b, u, id, grant, other)
  {
    RefusedExactlyWhen(s, es, t, id);
    assert u == ServeRequest(t, id, included, other);
    b, grant := t, None;
    if Verdict(t, id).Some? {
      InitIsInv(s);
      RunKeepsInv(s, es, t);
      b, grant := AcceptedIsServed(t, id, included, other);
    } else {
      RefusedIsIdle(t, id, included, other);
    }
  }

  /** A policy that arrives and is applied is in force as granted, under its revision, unless it is the one
      recorded already; one that fails changes nothing; one whose record fails is in force all the same. */
  lemma DeliveredIsInForce(t: State, id: SiteId, outcome: Outcome)
    requires id in t.children && id in t.links && t.links[id].Answered?
    ensures var u, k, c := Step(t, Deliver(id, outcome)), t.links[id], t.children[id];
            && u == t.(children := t.children[id := u.children[id]], links := t.links[id := Idle])
            && u.children[id].meter == c.meter && (u.children[id].known <==> c.known || (u.children[id] != c && k.grant.Some?))
            && (outcome == Failed ==> u.children[id] == c)
            && (outcome != Failed && k.revision != c.applied ==> u.children[id].ceiling == k.grant)
            && (outcome == Applied ==> u.children[id].applied == k.revision)
            && (outcome == Unrecorded || k.revision == c.applied ==> u.children[id].applied == c.applied)
            && (k.revision == c.applied ==> u.children[id].ceiling == c.ceiling)
  {
  }
}
