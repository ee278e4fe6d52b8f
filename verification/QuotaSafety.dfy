/** The quota is never exceeded, whatever is lost on the way: by what is accounted for plus what is
    issued, and by what is actually consumed everywhere. */
module QuotaSafety {
  import opened Common
  import opened Sums
  import opened QuotaModel

  // ------------------------------------------------------------------ invariants

  ghost predicate SameIds(s: State)
  {
    s.children.Keys == s.sites.Keys && s.links.Keys == s.sites.Keys
  }

  ghost predicate Grants(r: Revision, g: Option<nat>)
  {
    if r == Blank then g == None else r.grant == g
  }

  predicate Covered(r: Revision, ceiling: Option<nat>)
  {
    ceiling.Some? ==> r != Blank && r.grant.Some? && ceiling.value <= r.grant.value
  }

  /** Where the recorded revision does not cover the ceiling in force, what it grants is used up, so the
      controller cannot offer it again. */
  ghost predicate RecordFine(v: Site, c: Child, k: Link)
  {
    c.applied != Blank && !Covered(c.applied, c.ceiling) ==>
      && c.applied.grant.Some? && c.applied.grant.value <= c.meter && v.desired != c.applied
      && (k.Asked? ==> c.applied.grant.value <= k.meter)
  }

  /** The same where the controller heard of the use. */
  ghost predicate HeardOf(v: Site, c: Child)
  {
    c.applied != Blank && !Covered(c.applied, c.ceiling) ==> c.applied.grant.Some? && c.applied.grant.value <= v.usage
  }

  /** What is known of one site, its child and the exchange between them. */
  ghost predicate SiteFine(v: Site, c: Child, k: Link)
  {
    && !v.unlimited
    && (v.issued.Some? ==> v.issued.value > 0)
    && Grants(v.desired, v.sent) && RecordFine(v, c, k)
    && (v.sent.Some? ==> v.issued.Some? && 0 < v.sent.value <= v.issued.value)
    // The ceiling in force is covered by what is issued ...
    && (c.ceiling.Some? ==> v.issued.Some? && c.ceiling.value <= v.issued.value)
    // ... and so is all consumption that was not reported yet.
    && v.usage <= c.meter <= Max(v.usage, OrZero(v.issued))
    && (c.known ==> v.reported || v.issued.Some?)
    && (v.reported ==> c.known)
    && (!c.known ==> c.meter == 0 && c.ceiling.None?)
    && (k.Asked? ==> k.applied == c.applied && k.known == c.known && v.usage <= k.meter <= c.meter <= Max(k.meter, OrZero(c.ceiling)))
    && (k.Answered? ==> k.revision == v.desired && k.grant == v.sent && v.desired != Blank
                        && (k.grant.Some? ==> v.usage < k.grant.value))
  }

  ghost predicate Inv(s: State)
  {
    && 0 < s.quota <= COUNTER_LIMIT
    && SameIds(s)
    && (forall i :: i in s.sites ==> SiteFine(s.sites[i], s.children[i], s.links[i]))
    && s.used + TotalReserved(s.sites, s.sites.Keys) <= s.quota
    && s.used == s.start + s.local + Sum(s.sites.Keys, UsageAt(s.sites))
  }

  ghost function UsageAt(sites: map<SiteId, Site>): SiteId -> int
  {
    i => if i in sites then sites[i].usage else 0
  }

  ghost function MeterAt(children: map<SiteId, Child>): SiteId -> int
  {
    i => if i in children then children[i].meter else 0
  }

  // ---------------------------------------------------------------- sums over sites

  lemma OneSiteChanged(s: map<SiteId, Site>, t: map<SiteId, Site>, id: SiteId)
    requires id in s && id in t && t == s[id := t[id]]
    ensures t.Keys == s.Keys
    ensures TotalReserved(t, t.Keys) == TotalReserved(s, s.Keys) - Reserved(s[id]) + Reserved(t[id])
    ensures Sum(t.Keys, UsageAt(t)) == Sum(s.Keys, UsageAt(s)) - s[id].usage + t[id].usage
  {
    assert t.Keys == s.Keys;
    SumChangeOne(s.Keys, ReservedAt(s), ReservedAt(t), id);
    SumChangeOne(s.Keys, UsageAt(s), UsageAt(t), id);
  }

  // --------------------------------------------------------------------- each step

  lemma UseLocallyKeepsInv(s: State, d: nat)
    requires Inv(s) && Allowed(s, UseLocally(d))
    ensures Inv(Step(s, UseLocally(d)))
  {
  }

  lemma UseAtKeepsInv(s: State, id: SiteId, d: nat)
    requires Inv(s) && Allowed(s, UseAt(id, d))
    ensures Inv(Step(s, UseAt(id, d)))
  {
    assert SiteFine(s.sites[id], s.children[id], s.links[id]);
  }

  lemma ConfigureKeepsInv(s: State, id: SiteId, g: Option<nat>)
    requires Inv(s)
    ensures Inv(Step(s, Configure(id, g)))
  {
    if id in s.sites {
      OneSiteChanged(s.sites, Step(s, Configure(id, g)).sites, id);
    }
  }

  /** What acceptance makes of a fine site: the report is honest, so only a missing user is refused. */
  lemma AcceptIsFine(used: nat, v: Site, c: Child, k: Link)
    requires SiteFine(v, c, k) && k.Asked?
    requires used + Reserved(v) <= COUNTER_LIMIT
    ensures var a := Accept(used, v, Report(k.meter, k.known, k.applied));
            && (a.None? <==> k.applied != Blank && k.applied == v.desired && !k.known && v.issued.Some?)
            && (a.Some? ==>
                  && SiteFine(a.value.1, c, Idle) && HeardOf(a.value.1, c)
                  && a.value.0 + Reserved(a.value.1) <= used + Reserved(v)
                  && a.value.0 - a.value.1.usage == used - v.usage)
  {
  }

  /** A grant within the remaining allowance keeps the total within the quota. */
  lemma GrantFits(quota: nat, used: nat, sites: map<SiteId, Site>, id: SiteId, w: Site)
    requires id in sites && used + TotalReserved(sites, sites.Keys) <= quota
    requires Reserved(w) <= Max(Reserved(sites[id]), Remaining(quota, used, sites, id))
    ensures used + TotalReserved(sites[id := w], sites[id := w].Keys) <= quota
  {
    OneSiteChanged(sites, sites[id := w], id);
    SumRemove(sites.Keys, ReservedAt(sites), id);
  }

  /** The invariant site by site, after one site and its link changed. */
  lemma SitesStayFine(t: State, u: State, id: SiteId, v: Site, k: Link)
    requires SameIds(t) && id in t.sites
    requires forall i :: i in t.sites ==> SiteFine(t.sites[i], t.children[i], t.links[i])
    requires u.sites == t.sites[id := v] && u.links == t.links[id := k] && u.children == t.children
    requires SiteFine(v, t.children[id], k)
    ensures SameIds(u) && forall i :: i in u.sites ==> SiteFine(u.sites[i], u.children[i], u.links[i])
  {
  }

  ghost predicate SumsFine(s: State)
  {
    && s.used + TotalReserved(s.sites, s.sites.Keys) <= s.quota
    && s.used == s.start + s.local + Sum(s.sites.Keys, UsageAt(s.sites))
  }

  lemma AnsweredSums(t: State, u: State, id: SiteId, v: Site)
    requires SumsFine(t) && id in t.sites
    requires u == t.(sites := t.sites[id := v], links := u.links)
    requires v.usage == t.sites[id].usage
    requires Reserved(v) <= Max(Reserved(t.sites[id]), Remaining(t.quota, t.used, t.sites, id))
    ensures SumsFine(u)
  {
    OneSiteChanged(t.sites, u.sites, id);
    GrantFits(t.quota, t.used, t.sites, id, v);
  }

  lemma AnsweredKeepsInv(t: State, u: State, id: SiteId, v: Site, k: Link)
    requires Inv(t) && id in t.sites
    requires u == t.(sites := t.sites[id := v], links := t.links[id := k])
    requires SiteFine(v, t.children[id], k) && v.usage == t.sites[id].usage
    requires Reserved(v) <= Max(Reserved(t.sites[id]), Remaining(t.quota, t.used, t.sites, id))
    ensures Inv(u)
  {
    SitesStayFine(t, u, id, v, k);
    AnsweredSums(t, u, id, v);
  }

  lemma SnapshotKeepsInv(t: State, id: SiteId, g: Option<nat>, other: nat)
    requires Inv(t) && id in t.sites && t.links[id] == Idle && HeardOf(t.sites[id], t.children[id])
    requires g.Some? ==> t.sites[id].usage < g.value <= t.sites[id].usage + Remaining(t.quota, t.used, t.sites, id)
    ensures Inv(t.(sites := t.sites[id := Snapshot(t.sites[id], g, other)], links := t.links[id := Answered(g, Of(g, other))]))
  {
    var v, k := Snapshot(t.sites[id], g, other), Answered(g, Of(g, other));
    AnsweredKeepsInv(t, t.(sites := t.sites[id := v], links := t.links[id := k]), id, v, k);
  }

  lemma AcceptedKeepsInv(s: State, t: State, id: SiteId)
    requires Inv(s) && id in s.sites
    requires id in t.sites && t == s.(used := t.used, sites := s.sites[id := t.sites[id]], links := s.links[id := Idle])
    requires SiteFine(t.sites[id], s.children[id], Idle)
    requires t.used + Reserved(t.sites[id]) <= s.used + Reserved(s.sites[id])
    requires t.used - t.sites[id].usage == s.used - s.sites[id].usage
    ensures Inv(t)
  {
    OneSiteChanged(s.sites, t.sites, id);
  }

  lemma RoomForOne(s: State, id: SiteId)
    requires Inv(s) && id in s.sites
    ensures s.used + Reserved(s.sites[id]) <= s.quota
  {
    SumAtLeast(s.sites.Keys, ReservedAt(s.sites), id);
  }

  lemma AnswerKeepsInv(t: State, id: SiteId, included: bool, other: nat)
    requires Inv(t) && id in t.sites && t.links[id] == Idle && HeardOf(t.sites[id], t.children[id])
    ensures Inv(Answer(t, id, included, other))
  {
    match Offer(t.quota, t.used, t.sites, id, included)
    case Refused =>
    case Withheld => SnapshotKeepsInv(t, id, None, other);
    case Granted(g) => SnapshotKeepsInv(t, id, Some(g), other);
  }

  lemma ServeKeepsInv(s: State, id: SiteId, included: bool, other: nat)
    requires Inv(s) && id in s.sites && s.links[id].Asked?
    ensures Inv(ServeRequest(s, id, included, other))
  {
    var q := s.links[id];
    assert SiteFine(s.sites[id], s.children[id], q);
    RoomForOne(s, id);
    AcceptIsFine(s.used, s.sites[id], s.children[id], q);
    var a := Accept(s.used, s.sites[id], Report(q.meter, q.known, q.applied));
    if a.Some? {
      var t := s.(used := a.value.0, sites := s.sites[id := a.value.1], links := s.links[id := Idle]);
      AcceptedKeepsInv(s, t, id);
      AnswerKeepsInv(t, id, included, other);
    } else {
      LinkKeepsInv(s, ServeRequest(s, id, included, other), id);
    }
  }

  lemma DeliveredKeepsInv(s: State, t: State, id: SiteId, c: Child)
    requires Inv(s) && id in s.sites
    requires t == s.(children := s.children[id := c], links := s.links[id := Idle])
    requires SiteFine(s.sites[id], c, Idle)
    ensures Inv(t)
  {
  }

  lemma DeliverKeepsInv(s: State, id: SiteId, outcome: Outcome)
    requires Inv(s) && Allowed(s, Deliver(id, outcome))
    ensures Inv(Step(s, Deliver(id, outcome)))
  {
    if id in s.sites && s.links[id].Answered? {
      var c, a := s.children[id], s.links[id];
      assert SiteFine(s.sites[id], c, a);
      DeliveredKeepsInv(s, Step(s, Deliver(id, outcome)), id, Receive(c, a.grant, a.revision, outcome));
    }
  }

  /** Steps of the network change neither accounts nor children. */
  lemma LinkKeepsInv(s: State, t: State, id: SiteId)
    requires Inv(s) && id in s.links && id in t.links && t == s.(links := s.links[id := t.links[id]])
    requires SiteFine(s.sites[id], s.children[id], t.links[id])
    ensures Inv(t)
  {
  }

  lemma AskKeepsInv(s: State, id: SiteId)
    requires Inv(s)
    ensures Inv(Step(s, Ask(id)))
  {
    if id in s.sites {
      assert SiteFine(s.sites[id], s.children[id], s.links[id]);
      if s.links[id] == Idle {
        LinkKeepsInv(s, Step(s, Ask(id)), id);
      }
    }
  }

  lemma LoseKeepsInv(s: State, id: SiteId)
    requires Inv(s)
    ensures Inv(Step(s, Lose(id)))
  {
    if id in s.sites {
      assert SiteFine(s.sites[id], s.children[id], s.links[id]);
      LinkKeepsInv(s, Step(s, Lose(id)), id);
    }
  }

  lemma StepKeepsInv(s: State, e: Event)
    requires Inv(s) && Allowed(s, e)
    ensures Inv(Step(s, e))
  {
    match e
    case Configure(id, g) => ConfigureKeepsInv(s, id, g);
    case UseLocally(d) => UseLocallyKeepsInv(s, d);
    case UseAt(id, d) => UseAtKeepsInv(s, id, d);
    case Ask(id) => AskKeepsInv(s, id);
    case Serve(id, included, other) => if id in s.sites && s.links[id].Asked? { ServeKeepsInv(s, id, included, other); }
    case Deliver(id, outcome) => DeliverKeepsInv(s, id, outcome);
    case Lose(id) => LoseKeepsInv(s, id);
  }

  lemma {:induction false} RunKeepsInv(s: State, es: seq<Event>, t: State)
    requires Inv(s) && Reaches(s, es, t)
    ensures Inv(t)
    decreases |es|
  {
    if es != [] {
      StepKeepsInv(s, es[0]);
      RunKeepsInv(Step(s, es[0]), es[1..], t);
    }
  }

  lemma InitIsInv(s: State)
    requires Init(s)
    ensures Inv(s)
  {
    SumSubset(s.sites.Keys, {}, ReservedAt(s.sites));
    SumSubset(s.sites.Keys, {}, UsageAt(s.sites));
  }

  // ---------------------------------------------------------------------- theorems

  /** Used plus everything issued and not reported yet stays within the quota. */
  lemma QuotaCoversIssued(s: State, es: seq<Event>, t: State)
    requires Init(s) && Reaches(s, es, t)
    ensures t.used + TotalReserved(t.sites, t.sites.Keys) <= t.quota
  {
    InitIsInv(s);
    RunKeepsInv(s, es, t);
  }

  lemma UsageCoversMeters(t: State)
    requires Inv(t)
    ensures Sum(t.children.Keys, MeterAt(t.children)) <= Sum(t.sites.Keys, UsageAt(t.sites)) + TotalReserved(t.sites, t.sites.Keys)
  {
    var ids := t.sites.Keys;
    var bound := (i: SiteId) => UsageAt(t.sites)(i) + ReservedAt(t.sites)(i);
    forall i | i in ids ensures MeterAt(t.children)(i) <= bound(i)
    {
      assert SiteFine(t.sites[i], t.children[i], t.links[i]);
    }
    SumMonotone(ids, MeterAt(t.children), bound);
    SumPlus(ids, UsageAt(t.sites), ReservedAt(t.sites), bound);
  }

  /** What was actually consumed, on the controller and on every child, reported or not, stays
      within the quota. */
  lemma ConsumptionWithinQuota(s: State, es: seq<Event>, t: State)
    requires Init(s) && Reaches(s, es, t)
    ensures t.start + t.local + Sum(t.children.Keys, MeterAt(t.children)) <= t.quota
  {
    InitIsInv(s);
    RunKeepsInv(s, es, t);
    UsageCoversMeters(t);
  }

  /** The ceiling a child enforces never exceeds what the controller holds as issued to it, also
      right after an acknowledgement lowered that amount or a policy was left unrecorded. */
  lemma CeilingWithinIssued(s: State, es: seq<Event>, t: State, id: SiteId)
    requires Init(s) && Reaches(s, es, t) && id in t.children && t.children[id].ceiling.Some?
    ensures id in t.sites && t.sites[id].issued.Some? && t.children[id].ceiling.value <= t.sites[id].issued.value
  {
    InitIsInv(s);
    RunKeepsInv(s, es, t);
    assert SiteFine(t.sites[id], t.children[id], t.links[id]);
  }

  /** A heartbeat is refused exactly when the controller waits for the final total of a member the
      child never heard of: an earlier reply that included the member was lost, the next snapshot
      left the member out again, and the child acknowledges it. */
  lemma RefusedExactlyWhen(s: State, es: seq<Event>, t: State, id: SiteId)
    requires Init(s) && Reaches(s, es, t) && id in t.sites && id in t.links && t.links[id].Asked? && id in t.children
    ensures var q := t.links[id];
            Accept(t.used, t.sites[id], Report(q.meter, q.known, q.applied)).None? <==>
              t.children[id].applied != Blank && t.children[id].applied == t.sites[id].desired
              && !t.children[id].known && t.sites[id].issued.Some?
  {
    InitIsInv(s);
    RunKeepsInv(s, es, t);
    assert SiteFine(t.sites[id], t.children[id], t.links[id]);
    RoomForOne(t, id);
    AcceptIsFine(t.used, t.sites[id], t.children[id], t.links[id]);
  }

  ghost predicate Stuck(s: State, id: SiteId)
  {
    && id in s.sites && id in s.children && id in s.links
    && s.children[id].applied != Blank && s.children[id].applied == s.sites[id].desired
    && !s.children[id].known && s.sites[id].issued.Some?
    && !s.links[id].Answered?
    && (s.links[id].Asked? ==> s.links[id].applied == s.children[id].applied && !s.links[id].known)
  }

  /** That refusal is final: after any run, what the site has asked or would ask is refused, and the
      policy it acknowledges and the usage on the controller stand still. */
  lemma {:induction false} StuckForever(s: State, es: seq<Event>, t: State, id: SiteId)
    requires Stuck(s, id) && Reaches(s, es, t)
    ensures Stuck(t, id) && t.children[id].applied == s.children[id].applied && t.sites[id].usage == s.sites[id].usage
    ensures Accept(t.used, t.sites[id], Report(t.children[id].meter, t.children[id].known, t.children[id].applied)).None?
    ensures t.links[id].Asked? ==> Accept(t.used, t.sites[id], Report(t.links[id].meter, t.links[id].known, t.links[id].applied)).None?
    decreases |es|
  {
    if es != [] {
      StuckForever(Step(s, es[0]), es[1..], t, id);
    }
  }

  ghost function Run(s: State, es: seq<Event>): State
    decreases |es|
  {
    if es == [] then s else Run(Step(s, es[0]), es[1..])
  }

  lemma {:induction false} RunReaches(s: State, es: seq<Event>)
    requires forall e :: e in es ==> !e.UseLocally? && !e.UseAt? && (e.Deliver? ==> e.outcome == Applied)
    ensures Reaches(s, es, Run(s, es))
    decreases |es|
  {
    if es != [] { RunReaches(Step(s, es[0]), es[1..]); }
  }

  ghost function OneSite(v: Site, c: Child, k: Link): State
  {
    State(100, 0, 0, 0, map[7 := v], map[7 := c], map[7 := k])
  }

  /** The first snapshot leaves the member out and is applied; the next one includes it. */
  lemma FirstHalf(s: State)
    requires s == OneSite(Site(Some(0), false, 0, None, false, None, Blank), Child(false, 0, None, Blank), Idle)
    ensures var a := Step(Step(Step(s, Ask(7)), Serve(7, false, 1)), Deliver(7, Applied));
            a == OneSite(Site(Some(0), false, 0, None, false, None, Of(None, 1)), Child(false, 0, None, Of(None, 1)), Idle)
  {
    var s1 := Step(s, Ask(7));
    assert s1.sites.Keys - {7} == {};
    var s2 := Step(s1, Serve(7, false, 1));
    assert s2 == OneSite(Site(Some(0), false, 0, None, false, None, Of(None, 1)), Child(false, 0, None, Blank), Answered(None, Of(None, 1)));
  }

  lemma SecondHalf(s: State)
    requires s == OneSite(Site(Some(0), false, 0, None, false, None, Of(None, 1)), Child(false, 0, None, Of(None, 1)), Idle)
    ensures var a := Step(Step(Step(s, Ask(7)), Serve(7, true, 1)), Lose(7));
            a == OneSite(Site(Some(0), false, 0, Some(100), false, Some(100), Of(Some(100), 1)), Child(false, 0, None, Of(None, 1)), Idle)
  {
    var s1 := Step(s, Ask(7));
    assert s1.sites.Keys - {7} == {};
    assert Remaining(100, 0, s1.sites, 7) == 100;
    var v := s1.sites[7];
    assert Accept(0, v, Report(0, false, Of(None, 1))) == Some((0, v));
    assert s1.sites[7 := v] == s1.sites;
    assert Offer(s1.quota, s1.used, s1.sites, 7, true) == Granted(100);
  }

  lemma LastPart(s: State)
    requires s == OneSite(Site(Some(0), false, 0, Some(100), false, Some(100), Of(Some(100), 1)), Child(false, 0, None, Of(None, 1)), Idle)
    ensures Stuck(Step(Step(Step(s, Ask(7)), Serve(7, false, 1)), Deliver(7, Applied)), 7)
  {
  }

  /** And it does happen: one lost reply between two identical snapshots is enough. */
  lemma StuckIsReachable()
    ensures exists s, es, t :: Init(s) && Reaches(s, es, t) && Stuck(t, 7)
  {
    var s := OneSite(Site(Some(0), false, 0, None, false, None, Blank), Child(false, 0, None, Blank), Idle);
    var p, q, r := [Ask(7), Serve(7, false, 1), Deliver(7, Applied)], [Ask(7), Serve(7, true, 1), Lose(7)], [Ask(7), Serve(7, false, 1), Deliver(7, Applied)];
    FirstHalf(s);
    Run3(s, p[0], p[1], p[2]);
    var a := Run(s, p);
    SecondHalf(a);
    Run3(a, q[0], q[1], q[2]);
    var b := Run(a, q);
    LastPart(b);
    Run3(b, r[0], r[1], r[2]);
    RunConcat(s, p, q);
    RunConcat(s, p + q, r);
    RunReaches(s, p + q + r);
    StuckWitness(s, p + q + r, Run(b, r));
  }

  lemma StuckWitness(s: State, es: seq<Event>, t: State)
    requires s == OneSite(Site(Some(0), false, 0, None, false, None, Blank), Child(false, 0, None, Blank), Idle)
    requires Reaches(s, es, t) && Stuck(t, 7)
    ensures exists s, es, t :: Init(s) && Reaches(s, es, t) && Stuck(t, 7)
  {
    assert Init(s);
  }

  lemma Run3(s: State, d: Event, e: Event, f: Event)
    ensures Run(s, [d, e, f]) == Step(Step(Step(s, d), e), f)
  {
    assert [d, e, f][1..] == [e, f] && [e, f][1..] == [f];
    assert Run(Step(s, d), [e, f]) == Run(Step(Step(s, d), e), [f]);
    assert Run(Step(Step(s, d), e), [f]) == Run(Step(Step(Step(s, d), e), f), []);
  }

  lemma {:induction false} RunConcat(s: State, es: seq<Event>, fs: seq<Event>)
    ensures Run(s, es + fs) == Run(Run(s, es), fs)
    decreases |es|
  {
    if es == [] {
      assert es + fs == fs;
    } else {
      assert (es + fs)[1..] == es[1..] + fs;
      RunConcat(Step(s, es[0]), es[1..], fs);
    }
  }
}
