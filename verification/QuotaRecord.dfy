/** A child that applies a policy without recording its revision: exactly when that can end with a
    ceiling the controller no longer reserves for. */
module QuotaRecord {
  import opened Common
  import opened Sums
  import opened QuotaModel
  import opened QuotaSafety

  // ------------------------------------------------------------------ runs

  lemma Run2(s: State, d: Event, e: Event)
    ensures Run(s, [d, e]) == Step(Step(s, d), e)
  {
    assert [d, e][1..] == [e] && [e][1..] == [];
    assert Run(Step(s, d), [e]) == Run(Step(Step(s, d), e), []);
  }

  lemma {:induction false} ReachesOn(s: State, es: seq<Event>, t: State, fs: seq<Event>, w: State)
    requires Reaches(s, es, t) && Reaches(t, fs, w)
    ensures Reaches(s, es + fs, w)
    decreases |es|
  {
    if es == [] {
      assert es + fs == fs;
    } else {
      ReachesOn(Step(s, es[0]), es[1..], t, fs, w);
      assert (es + fs)[1..] == es[1..] + fs;
    }
  }

  lemma OneStep(s: State, e: Event, t: State)
    requires Allowed(s, e) && t == Step(s, e)
    ensures Reaches(s, [e], t)
  {
    assert [e][1..] == [] && Reaches(t, [], t);
  }

  lemma StepsOn(s: State, es: seq<Event>, t: State, e: Event, w: State)
    requires Reaches(s, es, t) && Allowed(t, e) && w == Step(t, e)
    ensures Reaches(s, es + [e], w)
  {
    OneStep(t, e, w);
    ReachesOn(s, es, t, [e], w);
  }

  // ------------------------------------------------------------------ the recorded policy comes back

  /** Some child enforces more than the controller holds as issued to it. */
  ghost predicate Overrun(s: State)
  {
    exists j :: OverrunAt(s, j)
  }

  ghost predicate OverrunAt(s: State, j: SiteId)
  {
    && j in s.children && j in s.sites && s.children[j].ceiling.Some?
    && (s.sites[j].issued.None? || s.children[j].ceiling.value > s.sites[j].issued.value)
  }

  /** A site whose child runs ahead of its record: it enforces `g` under the recorded revision `r`. */
  ghost predicate Ahead(v: Site, c: Child, g: nat, r: Revision)
  {
    && r != Blank && c.applied == r && c.known && c.ceiling == Some(g) && !v.unlimited
    && v.issued.Some? && g <= v.issued.value && v.usage <= c.meter
    && (r.grant.None? || c.meter < r.grant.value < g)
  }

  ghost predicate AheadState(s: State, id: SiteId, g: nat, r: Revision)
  {
    && 0 < s.quota <= COUNTER_LIMIT && SumsFine(s)
    && id in s.sites && id in s.children && id in s.links
    && (forall j :: j in s.sites ==> !s.sites[j].unlimited)
    && Ahead(s.sites[id], s.children[id], g, r)
  }

  /** A grant that was recorded and is not used up can be offered again. */
  lemma OfferAgain(s: State, id: SiteId, x: nat)
    requires 0 < s.quota <= COUNTER_LIMIT && SumsFine(s) && id in s.sites && (forall j :: j in s.sites ==> !s.sites[j].unlimited)
    requires s.sites[id].grant == Some(x) && s.sites[id].usage < x && s.sites[id].issued.Some? && x < s.sites[id].issued.value
    ensures Offer(s.quota, s.used, s.sites, id, true) == Granted(x)
  {
    SumRemove(s.sites.Keys, ReservedAt(s.sites), id);
    SumNonNegative(s.sites.Keys - {id}, ReservedAt(s.sites));
    SumAtLeast(s.sites.Keys, UsageAt(s.sites), id);
  }

  lemma OfferNothing(s: State, id: SiteId)
    requires id in s.sites && s.sites[id].grant == None
    ensures Offer(s.quota, s.used, s.sites, id, true) == Withheld
  {
  }

  /** The report of a child that runs ahead is booked and leaves its site ahead. */
  lemma ReportAhead(s: State, t: State, id: SiteId, g: nat, r: Revision)
    requires AheadState(s, id, g, r) && s.sites[id].sent.Some? && s.sites[id].desired != r
    requires s.sites[id].issued.value >= s.children[id].meter
    requires t == s.(used := s.used + s.children[id].meter - s.sites[id].usage,
                     sites := s.sites[id := s.sites[id].(usage := s.children[id].meter, reported := true)], links := s.links[id := Idle])
    ensures Accept(s.used, s.sites[id], Report(s.children[id].meter, true, r)) == Some((t.used, t.sites[id]))
    ensures AheadState(t, id, g, r)
  {
    SumAtLeast(s.sites.Keys, ReservedAt(s.sites), id);
    OneSiteChanged(s.sites, t.sites, id);
  }

  /** The snapshot that follows, if the site was told to grant what is recorded: the recorded one. */
  lemma AnswerAgain(b: State, id: SiteId, g: nat, r: Revision) returns (t: State)
    requires AheadState(b, id, g, r) && b.sites[id].grant == r.grant && b.sites[id].usage == b.children[id].meter
    ensures t == Answer(b, id, true, r.other)
    ensures t == b.(sites := b.sites[id := Snapshot(b.sites[id], r.grant, r.other)], links := b.links[id := Answered(r.grant, r)])
    ensures b.used <= b.quota
  {
    SumNonNegative(b.sites.Keys, ReservedAt(b.sites));
    if r.grant.Some? {
      OfferAgain(b, id, r.grant.value);
    } else {
      OfferNothing(b, id);
    }
    t := Answer(b, id, true, r.other);
  }

  lemma ServeAgain(s: State, id: SiteId, b: State, t: State, other: nat)
    requires id in s.sites && id in s.links && s.links[id].Asked?
    requires id in b.sites && Accept(s.used, s.sites[id], Report(s.links[id].meter, s.links[id].known, s.links[id].applied)) == Some((b.used, b.sites[id]))
    requires b == s.(used := b.used, sites := s.sites[id := b.sites[id]], links := s.links[id := Idle]) && t == Answer(b, id, true, other)
    ensures Step(s, Serve(id, true, other)) == t
  {
  }

  /** A request of the child under that grant. */
  lemma RecordedAgain(s: State, id: SiteId, g: nat, r: Revision) returns (t: State)
    requires AheadState(s, id, g, r) && s.links[id] == Asked(s.children[id].meter, true, r)
    requires s.sites[id].sent.Some? && s.sites[id].desired != r && s.sites[id].grant == r.grant
    requires s.sites[id].issued.value >= s.children[id].meter
    ensures t == Step(s, Serve(id, true, r.other)) && id in t.links && t.links[id] == Answered(r.grant, r)
    ensures t.children == s.children && t.quota == s.quota && t.used <= t.quota && id in t.sites
    ensures t.sites[id] == Site(r.grant, true, s.children[id].meter, t.sites[id].issued, false, r.grant, r)
  {
    var v, m := s.sites[id], s.children[id].meter;
    var b := s.(used := s.used + m - v.usage, sites := s.sites[id := v.(usage := m, reported := true)], links := s.links[id := Idle]);
    ReportAhead(s, b, id, g, r);
    t := AnswerAgain(b, id, g, r);
    ServeAgain(s, id, b, t, r.other);
  }

  /** The child skips the recorded snapshot, acknowledges it, and the controller lowers what it holds as
      issued below the ceiling. */
  lemma AcknowledgedAhead(s: State, id: SiteId, g: nat, r: Revision) returns (es: seq<Event>, t: State)
    requires id in s.sites && id in s.children && id in s.links && s.links[id].Answered? && r != Blank && s.links[id] == Answered(r.grant, r)
    requires s.children[id].applied == r && s.children[id].known && s.children[id].ceiling == Some(g)
    requires s.sites[id].usage == s.children[id].meter && s.sites[id].sent == r.grant && s.sites[id].desired == r && s.sites[id].reported
    requires s.used <= s.quota <= COUNTER_LIMIT && (r.grant.None? || 0 < r.grant.value < g)
    ensures Reaches(s, es, t) && OverrunAt(t, id)
  {
    var a := Step(s, Deliver(id, Applied));
    var b := Step(a, Ask(id));
    t := Step(b, Serve(id, false, 0));
    assert Accept(b.used, b.sites[id], Report(b.children[id].meter, true, r))
           == Some((b.used, b.sites[id].(reported := true, issued := r.grant, unlimited := false)));
    OneStep(s, Deliver(id, Applied), a);
    StepsOn(s, [Deliver(id, Applied)], a, Ask(id), b);
    StepsOn(s, [Deliver(id, Applied)] + [Ask(id)], b, Serve(id, false, 0), t);
    es := [Deliver(id, Applied)] + [Ask(id)] + [Serve(id, false, 0)];
  }

  // ------------------------------------------------------------------ exactly when

  /** A member that goes unrecorded while exposed: the child is ahead of its record. */
  lemma ExposedIsAhead(t: State, id: SiteId) returns (u: State)
    requires Inv(t) && id in t.links && t.links[id].Answered? && Exposed(t.children[id], t.links[id].grant)
    ensures id in t.children && u == Step(t, Deliver(id, Unrecorded)) && u.links == t.links[id := Idle] && u.sites == t.sites
    ensures AheadState(u, id, t.links[id].grant.value, t.children[id].applied)
    ensures u.sites[id].sent.Some? && u.sites[id].desired != t.children[id].applied && u.sites[id].issued.value >= u.children[id].meter
  {
    assert SiteFine(t.sites[id], t.children[id], t.links[id]);
    u := Step(t, Deliver(id, Unrecorded));
    forall j | j in u.sites ensures !u.sites[j].unlimited {
      assert SiteFine(t.sites[j], t.children[j], t.links[j]);
    }
  }

  /** From there the recorded grant is configured again, handed out again and acknowledged. */
  lemma AheadOverruns(u: State, id: SiteId, g: nat, r: Revision) returns (fs: seq<Event>, w: State)
    requires AheadState(u, id, g, r) && u.links[id] == Idle
    requires u.sites[id].sent.Some? && u.sites[id].desired != r && u.sites[id].issued.value >= u.children[id].meter
    ensures Reaches(u, fs, w) && OverrunAt(w, id)
  {
    var a := Configured(u, id, g, r);
    var b := Step(a, Ask(id));
    var c := RecordedAgain(b, id, g, r);
    var rest;
    rest, w := AcknowledgedAhead(c, id, g, r);
    OneStep(u, Configure(id, r.grant), a);
    StepsOn(u, [Configure(id, r.grant)], a, Ask(id), b);
    StepsOn(u, [Configure(id, r.grant)] + [Ask(id)], b, Serve(id, true, r.other), c);
    fs := [Configure(id, r.grant)] + [Ask(id)] + [Serve(id, true, r.other)] + rest;
    ReachesOn(u, [Configure(id, r.grant)] + [Ask(id)] + [Serve(id, true, r.other)], c, rest, w);
  }

  lemma Configured(u: State, id: SiteId, g: nat, r: Revision) returns (a: State)
    requires AheadState(u, id, g, r)
    ensures a == Step(u, Configure(id, r.grant)) && AheadState(a, id, g, r) && a.sites[id].grant == r.grant
    ensures a.sites[id] == u.sites[id].(grant := r.grant) && a.links == u.links && a.children == u.children
  {
    a := Step(u, Configure(id, r.grant));
    OneSiteChanged(u.sites, a.sites, id);
  }

  ghost predicate BreaksLater(u: State)
  {
    exists fs, w :: Reaches(u, fs, w) && Overrun(w)
  }

  lemma FineIsNotOverrun(w: State)
    requires Inv(w)
    ensures !Overrun(w)
  {
    forall j | j in w.sites ensures !OverrunAt(w, j) {
      assert SiteFine(w.sites[j], w.children[j], w.links[j]);
    }
  }

  lemma UnexposedIsFine(t: State, id: SiteId)
    requires Inv(t) && Allowed(t, Deliver(id, Unrecorded))
    ensures !BreaksLater(Step(t, Deliver(id, Unrecorded)))
  {
    var u := Step(t, Deliver(id, Unrecorded));
    StepKeepsInv(t, Deliver(id, Unrecorded));
    forall fs, w | Reaches(u, fs, w) ensures !Overrun(w) {
      RunKeepsInv(u, fs, w);
      FineIsNotOverrun(w);
    }
  }

  lemma ExposedBreaks(t: State, id: SiteId)
    requires Inv(t) && id in t.links && t.links[id].Answered? && id in t.children && Exposed(t.children[id], t.links[id].grant)
    ensures BreaksLater(Step(t, Deliver(id, Unrecorded)))
  {
    var u := ExposedIsAhead(t, id);
    var fs, w := AheadOverruns(u, id, t.links[id].grant.value, t.children[id].applied);
    assert Overrun(w);
  }

  /** In every reachable state in which a policy arrives: leaving it unrecorded can end with a child that
      enforces more than is issued to it if and only if the policy is exposed. The child can tell before
      it writes. */
  lemma UnrecordedBreaksExactlyWhen(s: State, es: seq<Event>, t: State, id: SiteId)
    requires Init(s) && Reaches(s, es, t) && id in t.links && t.links[id].Answered? && id in t.children
    ensures BreaksLater(Step(t, Deliver(id, Unrecorded))) <==> Exposed(t.children[id], t.links[id].grant)
  {
    InitIsInv(s);
    RunKeepsInv(s, es, t);
    if Exposed(t.children[id], t.links[id].grant) {
      ExposedBreaks(t, id);
    } else {
      UnexposedIsFine(t, id);
    }
  }

  // ------------------------------------------------------------------ an instance

  /** The child before a policy that raises its ceiling arrives. */
  lemma Raised(s: State)
    requires s == OneSite(Site(Some(0), false, 0, None, false, None, Of(None, 1)), Child(false, 0, None, Of(None, 1)), Idle)
    ensures Step(Step(s, Ask(7)), Serve(7, true, 1))
            == OneSite(Site(Some(0), false, 0, Some(100), false, Some(100), Of(Some(100), 1)), Child(false, 0, None, Of(None, 1)),
                       Answered(Some(100), Of(Some(100), 1)))
  {
    SecondHalf(s);
    var s1 := Step(s, Ask(7));
    assert s1.sites.Keys - {7} == {};
    assert Remaining(100, 0, s1.sites, 7) == 100;
    var v := s1.sites[7];
    assert Accept(0, v, Report(0, false, Of(None, 1))) == Some((0, v));
    assert s1.sites[7 := v] == s1.sites;
    assert Offer(s1.quota, s1.used, s1.sites, 7, true) == Granted(100);
  }

  lemma Acknowledged(s: State)
    requires s == OneSite(Site(Some(0), true, 0, Some(100), false, None, Of(None, 1)), Child(true, 0, Some(100), Of(None, 1)), Idle)
    ensures Step(Step(s, Ask(7)), Serve(7, false, 1))
            == OneSite(Site(Some(0), true, 0, None, false, None, Of(None, 1)), Child(true, 0, Some(100), Of(None, 1)),
                       Answered(None, Of(None, 1)))
  {
  }

  /** From there the quota is used twice. */
  lemma UsedTwice(s: State) returns (t: State)
    requires s == OneSite(Site(Some(0), true, 0, None, false, None, Of(None, 1)), Child(true, 0, Some(100), Of(None, 1)),
                          Answered(None, Of(None, 1)))
    ensures Reaches(s, [UseLocally(100), UseAt(7, 100)], t) && t.quota == 100
    ensures 7 in t.children && t.children[7].ceiling == Some(100) && t.sites == s.sites
    ensures t.start + t.local + Sum(t.children.Keys, MeterAt(t.children)) == 2 * t.quota
  {
    var a := Step(s, UseLocally(100));
    t := Step(a, UseAt(7, 100));
    SumRemove(s.sites.Keys, ReservedAt(s.sites), 7);
    SumRemove(t.children.Keys, MeterAt(t.children), 7);
    assert s.sites.Keys - {7} == {} && t.children.Keys - {7} == {};
    assert [UseLocally(100), UseAt(7, 100)][1..] == [UseAt(7, 100)] && [UseAt(7, 100)][1..] == [];
    assert Reaches(t, [], t);
    assert Reaches(a, [UseAt(7, 100)], t);
  }

  lemma BeforeRecord(s: State) returns (es: seq<Event>, t: State)
    requires s == OneSite(Site(Some(0), false, 0, None, false, None, Blank), Child(false, 0, None, Blank), Idle)
    ensures Reaches(s, es, t)
    ensures t == OneSite(Site(Some(0), false, 0, Some(100), false, Some(100), Of(Some(100), 1)), Child(false, 0, None, Of(None, 1)),
                         Answered(Some(100), Of(Some(100), 1)))
  {
    var p, q := [Ask(7), Serve(7, false, 1), Deliver(7, Applied)], [Ask(7), Serve(7, true, 1)];
    FirstHalf(s);
    Run3(s, p[0], p[1], p[2]);
    Raised(Run(s, p));
    Run2(Run(s, p), q[0], q[1]);
    RunConcat(s, p, q);
    RunReaches(s, p + q);
    es, t := p + q, Run(Run(s, p), q);
  }

  lemma AfterRecord(u: State) returns (fs: seq<Event>, c: State)
    requires u == OneSite(Site(Some(0), false, 0, Some(100), false, Some(100), Of(Some(100), 1)), Child(true, 0, Some(100), Of(None, 1)), Idle)
    ensures Reaches(u, fs, c)
    ensures c == OneSite(Site(Some(0), true, 0, None, false, None, Of(None, 1)), Child(true, 0, Some(100), Of(None, 1)),
                         Answered(None, Of(None, 1)))
  {
    var p, q := [Ask(7), Serve(7, false, 1), Deliver(7, Applied)], [Ask(7), Serve(7, false, 1)];
    Run3(u, p[0], p[1], p[2]);
    Acknowledged(Run(u, p));
    Run2(Run(u, p), q[0], q[1]);
    RunConcat(u, p, q);
    RunReaches(u, p + q);
    fs, c := p + q, Run(Run(u, p), q);
  }

  lemma RecordFails(t: State) returns (u: State)
    requires t == OneSite(Site(Some(0), false, 0, Some(100), false, Some(100), Of(Some(100), 1)), Child(false, 0, None, Of(None, 1)),
                          Answered(Some(100), Of(Some(100), 1)))
    ensures u == Step(t, Deliver(7, Unrecorded)) && Exposed(t.children[7], t.links[7].grant)
    ensures u == OneSite(Site(Some(0), false, 0, Some(100), false, Some(100), Of(Some(100), 1)), Child(true, 0, Some(100), Of(None, 1)), Idle)
  {
    u := Step(t, Deliver(7, Unrecorded));
  }

  lemma StartIsInit(s: State)
    requires s == OneSite(Site(Some(0), false, 0, None, false, None, Blank), Child(false, 0, None, Blank), Idle)
    ensures Init(s)
  {
  }

  /** One such run to its end: a withdrawn member keeps its ceiling with nothing issued, and twice the
      quota is used. */
  lemma UnrecordedBreaks() returns (s: State, es: seq<Event>, t: State, fs: seq<Event>, w: State)
    ensures Init(s) && Reaches(s, es, t) && 7 in t.links && t.links[7].Answered? && 7 in t.children
    ensures Exposed(t.children[7], t.links[7].grant) && Reaches(Step(t, Deliver(7, Unrecorded)), fs, w)
    ensures 7 in w.children && 7 in w.sites && w.children[7].ceiling == Some(w.quota) && w.sites[7].issued == None
    ensures w.start + w.local + Sum(w.children.Keys, MeterAt(w.children)) == 2 * w.quota > w.quota
  {
    s := OneSite(Site(Some(0), false, 0, None, false, None, Blank), Child(false, 0, None, Blank), Idle);
    StartIsInit(s);
    es, t := BeforeRecord(s);
    var u := RecordFails(t);
    var first, c := AfterRecord(u);
    w := UsedTwice(c);
    ReachesOn(u, first, c, [UseLocally(100), UseAt(7, 100)], w);
    fs := first + [UseLocally(100), UseAt(7, 100)];
  }
}
