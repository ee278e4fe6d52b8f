/** What every step of the metering exchange keeps, and when a report is booked. */
module MeterTheorems {
  import opened Common
  import opened Sums
  import opened MeterModel
  import opened MeterSafety
  import opened MeterExchange

  // ------------------------------------------------------------------ booking

  lemma {:induction false} TableHolds(rows: map<Key, Pair>, reported: seq<Row>, k: Key)
    requires Distinct(reported)
    ensures k in Table(rows, reported) <==> k in rows || k in KeysOf(reported)
    ensures k !in KeysOf(reported) && k in rows ==> Table(rows, reported)[k] == rows[k]
    ensures forall i :: 0 <= i < |reported| && reported[i].key == k ==> Table(rows, reported)[k] == reported[i].bytes
    decreases |reported|
  {
    if reported != [] {
      var init := reported[..|reported| - 1];
      TableHolds(rows, init, k);
      assert forall i :: 0 <= i < |init| ==> init[i] == reported[i];
      assert KeysOf(reported) == KeysOf(init) + {reported[|reported| - 1].key};
    }
  }

  /** An accepted report leaves the controller with the child's table as it was when it asked. */
  lemma BookedTable(was: map<Key, Pair>, rows: seq<Row>, at: map<Key, Pair>, acks: map<Key, Pair>)
    requires Listing(rows, at, acks) && Below(acks, was) && Below(was, at)
    ensures Table(was, rows) == at
  {
    forall k ensures k in Table(was, rows) <==> k in at
             ensures k in at ==> k in Table(was, rows) && Table(was, rows)[k] == at[k] {
      TableHolds(was, rows, k);
      if k in KeysOf(rows) {
        var i :| 0 <= i < |rows| && rows[i].key == k;
      } else if k in at {
        SettledRow(at, was, acks, k);
      }
    }
  }

  lemma BookedHeld(c: Child, v: Control, w: Control, h: Heartbeat, at: map<Key, Pair>, lost: map<UserId, Pair>, u: UserId)
    requires Held(c, v, u) && h.usage.Keys == h.baseline.Keys && w == Book(v, h) && w.rows == at
    requires u in h.usage ==> && u in c.base && h.baseline[u] == c.base[u]
                              && Accounted(h.usage[u], h.baseline[u], at, LossOf(lost, u), u) && LossOf(lost, u) == LossAfter(v, h, u)
    requires u !in h.usage ==> NoRows(at, u) && !Metered(v, u)
    ensures Held(c, w, u)
  {
  }

  lemma AllBookedHeld(s: State, w: Control, h: Heartbeat, at: map<Key, Pair>, lost: map<UserId, Pair>)
    requires (forall u :: Held(s.child, s.control, u)) && Honest(s, h, at, lost) && LossesAgree(s.control, h, lost)
    requires w == Book(s.control, h) && w.rows == at
    ensures forall u :: Held(s.child, w, u)
  {
    forall u ensures Held(s.child, w, u) {
      assert Held(s.child, s.control, u);
      assert u in h.usage ==> ReportFine(s, h, at, lost, u);
      BookedHeld(s.child, s.control, w, h, at, lost, u);
    }
  }

  lemma BookedAnswer(s: State, h: Heartbeat, at: map<Key, Pair>, lost: map<UserId, Pair>, row: Row)
    requires Inv(s) && Honest(s, h, at, lost) && row in h.rows
    ensures row.key in at && row.bytes == at[row.key]
    ensures row.key in s.child.acks ==> Within(s.child.acks[row.key], row.bytes)
  {
    assert Pending(at, s.child.acks, row.key);
    BelowTrans(s.child.acks, s.control.rows, at);
  }

  /** Noting a policy keeps what was noted before. */
  lemma NoteKeepsChild(c: Child, v: Control, w: Control, members: map<UserId, Period>, nodes: map<NodeId, Rule>)
    requires ChildFine(c, v) && (forall n :: n in nodes ==> RuleFits(n, nodes[n]))
    requires w.rules == v.rules + nodes.Items && w.periods == v.periods + members.Items
    ensures ChildFine(c, w) && PolicyFine(w, members, nodes)
  {
    forall p | p in w.rules ensures ValidRate(p.1.rate) && !p.1.package {
    }
    forall k | k in c.rows ensures KeyFine(c, w, k) {
      assert KeyFine(c, v, k);
    }
    forall u | u in c.meters ensures MemberFine(c, w, u) {
      assert MemberFine(c, v, u);
    }
    forall u | u in members ensures (u, members[u]) in w.periods {
      assert (u, members[u]) in members.Items;
    }
    forall n | n in nodes ensures (n, nodes[n]) in w.rules {
      assert (n, nodes[n]) in nodes.Items;
    }
  }

  lemma NoteKeepsHeld(c: Child, v: Control, members: map<UserId, Period>, nodes: map<NodeId, Rule>, u: UserId)
    requires Held(c, v, u)
    ensures Held(c, Note(v, members, nodes), u)
  {
  }

  lemma ServedAnswer(s: State, t: State, h: Heartbeat, at: map<Key, Pair>, lost: map<UserId, Pair>)
    requires Inv(s) && Honest(s, h, at, lost) && t.child == s.child && t.control.rows == at
    ensures forall i :: 0 <= i < |h.rows| ==> AnswerFine(t, h.rows[i])
  {
    forall i | 0 <= i < |h.rows| ensures AnswerFine(t, h.rows[i]) {
      BookedAnswer(s, h, at, lost, h.rows[i]);
    }
  }

  lemma BookStep(s: State, members: map<UserId, Period>, nodes: map<NodeId, Rule>, other: nat)
    requires s.link.Asked? && Accepted(s.control, s.link.report)
    ensures Step(s, Serve(true, members, nodes, other))
            == Answer(s, s.link.report, members, nodes, other)
  {
  }

  lemma NotedHeld(c: Child, w: Control, members: map<UserId, Period>, nodes: map<NodeId, Rule>)
    requires forall u :: Held(c, w, u)
    ensures forall u :: Held(c, Note(w, members, nodes), u)
  {
    forall u ensures Held(c, Note(w, members, nodes), u) {
      NoteKeepsHeld(c, w, members, nodes, u);
    }
  }

  lemma BookKeepsInv(s: State, members: map<UserId, Period>, nodes: map<NodeId, Rule>, other: nat)
    requires Inv(s) && s.link.Asked? && Accepted(s.control, s.link.report)
    requires Allowed(s, Serve(true, members, nodes, other))
    ensures Inv(Step(s, Serve(true, members, nodes, other)))
  {
    var h, at, lost := s.link.report, s.link.at, s.link.lost;
    var w := Book(s.control, h);
    var t := Step(s, Serve(true, members, nodes, other));
    BookStep(s, members, nodes, other);
    AcceptedAgree(s, h, at, lost);
    BookedTable(s.control.rows, h.rows, at, s.child.acks);
    BelowTrans(s.child.acks, s.control.rows, at);
    NoteKeepsChild(s.child, s.control, t.control, members, nodes);
    AllBookedHeld(s, w, h, at, lost);
    NotedHeld(s.child, w, members, nodes);
    ServedAnswer(s, t, h, at, lost);
  }

  lemma AcceptedAgree(s: State, h: Heartbeat, at: map<Key, Pair>, lost: map<UserId, Pair>)
    requires Inv(s) && Honest(s, h, at, lost) && Accepted(s.control, h)
    ensures LossesAgree(s.control, h, lost)
  {
    HonestVerified(s, h, at, lost);
  }

  lemma ServeKeepsInv(s: State, e: Event)
    requires Inv(s) && s.link.Asked? && e.Serve? && Allowed(s, e)
    ensures Inv(Step(s, e))
  {
    if e.elsewhere && Accepted(s.control, s.link.report) {
      BookKeepsInv(s, e.members, e.nodes, e.other);
    } else {
      HeldFrame(s.child, s.child, s.control);
    }
  }

  // ------------------------------------------------------------------ acknowledging

  ghost predicate Acknowledgeable(acks: map<Key, Pair>, table: map<Key, Pair>, booked: map<Key, Pair>, rows: seq<Row>)
  {
    && Distinct(rows) && Below(acks, booked) && Below(booked, table)
    && forall i :: 0 <= i < |rows| ==>
         && rows[i].key in booked && Within(rows[i].bytes, booked[rows[i].key])
         && (rows[i].key in acks ==> Within(acks[rows[i].key], rows[i].bytes))
  }

  /** An answer is always a valid acknowledgement, and every row of it is acknowledged as sent. */
  lemma {:induction false} AcknowledgeWorks(acks: map<Key, Pair>, table: map<Key, Pair>, booked: map<Key, Pair>, rows: seq<Row>)
    requires Acknowledgeable(acks, table, booked, rows)
    ensures Acknowledge(acks, table, rows) == Some(Table(acks, rows))
    ensures Below(acks, Table(acks, rows)) && Below(Table(acks, rows), booked)
    decreases |rows|
  {
    if rows != [] {
      var init, row := rows[..|rows| - 1], rows[|rows| - 1];
      AcknowledgeWorks(acks, table, booked, init);
      TableHolds(acks, init, row.key);
      assert row.key !in KeysOf(init);
    }
  }

  lemma DeliverResult(s: State, applied: bool)
    requires LinkFine(s) && s.link.Answered?
    requires Below(s.child.acks, s.control.rows) && Below(s.control.rows, s.child.rows)
    ensures Below(Table(s.child.acks, s.link.rows), s.control.rows)
    ensures Acknowledge(s.child.acks, s.child.rows, s.link.rows) == Some(Table(s.child.acks, s.link.rows))
    ensures var c := s.child.(acks := Table(s.child.acks, s.link.rows));
            Step(s, Deliver(applied)) == State(if applied then Apply(c, s.link.members, s.link.nodes) else c, s.control, Idle)
  {
    forall i | 0 <= i < |s.link.rows| ensures AnswerFine(s, s.link.rows[i]) {
    }
    AcknowledgeWorks(s.child.acks, s.child.rows, s.control.rows, s.link.rows);
  }

  lemma AckedChildFine(c: Child, d: Child, v: Control)
    requires ChildFine(c, v) && d == c.(acks := d.acks)
    ensures ChildFine(d, v)
  {
    KeysStayFine(c, d, v, v);
    forall u | u in d.meters ensures MemberFine(d, v, u) {
      assert MemberFine(c, v, u);
    }
  }

  lemma DeliverKeepsInv(s: State, applied: bool)
    requires Inv(s) && s.link.Answered?
    ensures Inv(Step(s, Deliver(applied)))
  {
    DeliverResult(s, applied);
    var c := s.child.(acks := Table(s.child.acks, s.link.rows));
    AckedChildFine(s.child, c, s.control);
    HeldFrame(s.child, c, s.control);
    if applied {
      ApplyKeepsChild(c, s.control, s.link.members, s.link.nodes);
      forall u ensures Held(Apply(c, s.link.members, s.link.nodes), s.control, u) {
        ApplyKeepsHeld(c, s.control, s.link.members, s.link.nodes, u);
      }
    }
  }

  lemma LoseKeepsInv(s: State)
    requires Inv(s)
    ensures Inv(Step(s, Lose))
  {
    HeldFrame(s.child, s.child, s.control);
  }

  lemma StepKeepsInv(s: State, e: Event)
    requires Inv(s) && Allowed(s, e)
    ensures Inv(Step(s, e))
  {
    match e
    case Collect(k, up, bytes) => CollectKeepsInv(s, k, up, bytes);
    case Ask(rows, envelope) => if s.link.Idle? { AskKeepsInv(s, rows, envelope); }
    case Serve(_, _, _, _) => if s.link.Asked? { ServeKeepsInv(s, e); }
    case Deliver(applied) => if s.link.Answered? { DeliverKeepsInv(s, applied); }
    case Lose => LoseKeepsInv(s);
  }

  lemma {:induction false} RunKeepsInv(s: State, es: seq<Event>, t: State)
    requires Inv(s) && Reaches(s, es, t)
    ensures Inv(t)
    decreases |es|
  {
    if es != [] {
      StepKeepsInv(s, es[0]);
      RunKeepsInv(Step(s, es[0]), es[1..], t);
    }
  }

  lemma InitIsInv(s: State)
    requires Init(s)
    ensures Inv(s)
  {
    forall u ensures Held(s.child, s.control, u) {
      if u in s.child.meters {
        assert LegacyMember(s, u);
      }
    }
    forall u | u in s.child.meters ensures MemberFine(s.child, s.control, u) {
      assert LegacyMember(s, u);
      FromBaseAccounted(s.child.rows, u, s.child.base[u], s.child.meters[u].period);
    }
  }

  lemma ReachableInv(s: State, es: seq<Event>, t: State)
    requires Init(s) && Reaches(s, es, t)
    ensures Inv(t)
  {
    InitIsInv(s);
    RunKeepsInv(s, es, t);
  }

  // ------------------------------------------------------------------ watermarks

  /** Whatever is lost or refused, every row has acknowledged <= booked <= metered, and the controller's
      totals are the baselines plus its rows, in raw and in weighted bytes, less the thousandths
      dropped at turns of the period. */
  lemma WatermarksAreOrdered(s: State, es: seq<Event>, t: State)
    requires Init(s) && Reaches(s, es, t)
    ensures Below(t.child.acks, t.control.rows) && Below(t.control.rows, t.child.rows)
    ensures forall u :: Metered(t.control, u) ==>
              && u in t.child.base
              && Accounted(t.control.usage[u], t.child.base[u], t.control.rows, LossOf(t.control.lost, u), u)
  {
    ReachableInv(s, es, t);
    forall u | Metered(t.control, u)
      ensures u in t.child.base && Accounted(t.control.usage[u], t.child.base[u], t.control.rows, LossOf(t.control.lost, u), u)
    {
      assert Held(t.child, t.control, u);
    }
  }

  /** No acknowledgement that arrives is refused, and it is recorded exactly as sent. */
  lemma AcknowledgementsApply(s: State, es: seq<Event>, t: State)
    requires Init(s) && Reaches(s, es, t) && t.link.Answered?
    ensures Acknowledge(t.child.acks, t.child.rows, t.link.rows) == Some(Table(t.child.acks, t.link.rows))
  {
    ReachableInv(s, es, t);
    DeliverResult(t, false);
  }

  // ------------------------------------------------------------------ when a report is booked

  function PendingKeys(c: Child): set<Key>
  {
    set k | k in c.rows && Pending(c.rows, c.acks, k)
  }

  /** What a pending row takes in a report, with its separator. */
  ghost function Weight(rows: map<Key, Pair>): Key -> int
  {
    k => RowBytes(k, RowOr(rows, k)) + 1
  }

  /** What the pending rows take in a report. */
  ghost function PendingBytes(c: Child): int
  {
    if PendingKeys(c) == {} then 0 else 15 + Sum(PendingKeys(c), Weight(c.rows))
  }

  lemma {:induction false} RowsBytesIsSum(rows: seq<Row>, table: map<Key, Pair>)
    requires Distinct(rows) && forall i :: 0 <= i < |rows| ==> rows[i].key in table && rows[i].bytes == table[rows[i].key]
    ensures RowsBytes(rows) == Sum(KeysOf(rows), Weight(table))
    decreases |rows|
  {
    if rows != [] {
      var init, row := rows[..|rows| - 1], rows[|rows| - 1];
      RowsBytesIsSum(init, table);
      assert KeysOf(rows) == KeysOf(init) + {row.key} by {
        assert forall i :: 0 <= i < |init| ==> init[i] == rows[i];
      }
      SumInsert(KeysOf(init), Weight(table), row.key);
    }
  }

  /** The size of a report depends on what is pending alone. */
  lemma ListingBytes(c: Child, rows: seq<Row>)
    requires Listing(rows, c.rows, c.acks)
    ensures UsageBytes(rows) == PendingBytes(c) && KeysOf(rows) == PendingKeys(c)
  {
    RowsBytesIsSum(rows, c.rows);
    assert KeysOf(rows) == PendingKeys(c);
    if rows != [] {
      assert rows[0].key in KeysOf(rows);
    }
  }

  /** The byte limit stops a report long before its rows are counted. */
  lemma {:induction false} RowsTakeBytes(rows: seq<Row>)
    ensures RowsBytes(rows) >= 100 * |rows|
    decreases |rows|
  {
    if rows != [] {
      RowsTakeBytes(rows[..|rows| - 1]);
    }
  }

  lemma RowLimitNeverReached(rows: seq<Row>, envelope: nat)
    requires envelope + UsageBytes(rows) <= MAX_BYTES
    ensures |rows| <= 20971 < MAX_ROWS
  {
    RowsTakeBytes(rows);
  }

  /** The two sides will have dropped the same thousandths of member `u` once it is reported. */
  predicate LossAgrees(c: Child, v: Control, u: UserId)
    requires u in c.meters
  {
    LossOf(c.lost, u) == MoreLost(v.lost, u, Forgets(v, u, c.meters[u].period))
  }

  /** A report of the child as it is now, with `envelope` bytes apart from its rows, is sent and booked. */
  ghost predicate Reportable(c: Child, v: Control, envelope: nat)
  {
    && envelope + PendingBytes(c) <= MAX_BYTES
    && |c.meters| <= MAX_USERS
    && (forall k :: Pending(c.rows, c.acks, k) ==> !k.rule.package)
    && (forall u :: u in c.meters ==> LossAgrees(c, v, u))
  }

  lemma ReportAccepted(a: State, c: Child, rows: seq<Row>)
    requires Inv(a) && a.child == c && a.link == Asked(Report(c, rows), c.rows, c.lost) && |rows| <= MAX_ROWS
    ensures Accepted(a.control, Report(c, rows))
            <==> |c.meters| <= MAX_USERS && AllIssued(a.control, rows) && LossesAgree(a.control, Report(c, rows), c.lost)
  {
    HonestVerified(a, Report(c, rows), c.rows, c.lost);
  }

  lemma PendingIssued(v: Control, c: Child, rows: seq<Row>)
    requires Listing(rows, c.rows, c.acks) && ChildFine(c, v)
    ensures AllIssued(v, rows) <==> forall k :: Pending(c.rows, c.acks, k) ==> !k.rule.package
  {
    forall k | Pending(c.rows, c.acks, k) ensures Issued(v, k) <==> !k.rule.package { assert KeyFine(c, v, k); }
    if AllIssued(v, rows) {
      forall k | Pending(c.rows, c.acks, k) ensures !k.rule.package {
        assert k in KeysOf(rows);
        var i: nat :| i < |rows| && rows[i].key == k;
        assert Issued(v, rows[i].key);
      }
    }
  }

  lemma AcceptedReportable(a: State, c: Child, rows: seq<Row>, envelope: nat)
    requires Inv(a) && a.child == c && a.link == Asked(Report(c, rows), c.rows, c.lost) && Listing(rows, c.rows, c.acks)
    requires envelope + PendingBytes(c) <= MAX_BYTES && |rows| <= MAX_ROWS
    ensures Accepted(a.control, Report(c, rows)) <==> Reportable(c, a.control, envelope)
  {
    ReportAccepted(a, c, rows);
    PendingIssued(a.control, c, rows);
  }

  lemma SentAccepted(t: State, rows: seq<Row>, envelope: nat)
    requires Inv(t) && t.link.Idle? && Allowed(t, Ask(rows, envelope)) && envelope + PendingBytes(t.child) <= MAX_BYTES
    ensures Accepted(t.control, Report(t.child, rows)) <==> Reportable(t.child, t.control, envelope)
  {
    ListingBytes(t.child, rows);
    AskKeepsInv(t, rows, envelope);
    RowLimitNeverReached(rows, envelope);
    AcceptedReportable(Step(t, Ask(rows, envelope)), t.child, rows, envelope);
  }

  /** Whether a report is sent, and whether it is then accepted. */
  lemma AskedAccepted(t: State, rows: seq<Row>, envelope: nat)
    requires Inv(t) && t.link.Idle? && Allowed(t, Ask(rows, envelope))
    ensures if envelope + PendingBytes(t.child) <= MAX_BYTES then
              && Step(t, Ask(rows, envelope)) == State(t.child, t.control, Asked(Report(t.child, rows), t.child.rows, t.child.lost))
              && (Accepted(t.control, Report(t.child, rows)) <==> Reportable(t.child, t.control, envelope))
            else Step(t, Ask(rows, envelope)) == t
  {
    ListingBytes(t.child, rows);
    if envelope + PendingBytes(t.child) <= MAX_BYTES {
      SentAccepted(t, rows, envelope);
    }
  }

  /** Thousandths of weighted bytes the child metered and the controller has not booked. */
  ghost function Unbooked(c: Child, v: Control, u: UserId, up: bool): int
  {
    Tally(c.rows, u, up, true) - Tally(v.rows, u, up, true)
  }

  /** The weighted total the controller starts member `u` from: what it booked, without the rest if the
      period turned, or the baseline of a member it knows no rows of. */
  function StartWeight(c: Child, v: Control, u: UserId, up: bool): nat
    requires u in c.meters && u in c.base
  {
    if Metered(v, u) then Measure(Turn(v.usage[u], c.meters[u].period), up, true) else 1000 * Direction(c.base[u], up)
  }

  /** The child's weighted total is that start and the weight of the rows not booked yet. */
  ghost predicate WeightFollows(c: Child, v: Control, u: UserId, up: bool)
    requires u in c.meters && u in c.base
  {
    Measure(c.meters[u], up, true) == StartWeight(c, v, u, up) + Unbooked(c, v, u, up)
  }

  lemma LossOfKnown(c: Child, v: Control, u: UserId, up: bool)
    requires u in c.meters && u in c.base && Metered(v, u)
    requires AccountedIn(c.meters[u], c.base[u], c.rows, LossOf(c.lost, u), u, up, true)
    requires AccountedIn(v.usage[u], c.base[u], v.rows, LossOf(v.lost, u), u, up, true)
    ensures WeightFollows(c, v, u, up)
            <==> Direction(LossOf(c.lost, u), up) == Direction(LossOf(v.lost, u), up) + Direction(Forgets(v, u, c.meters[u].period), up)
  {
  }

  lemma LossOfNew(c: Child, v: Control, u: UserId, up: bool)
    requires u in c.meters && u in c.base && !Metered(v, u) && NoRows(v.rows, u) && LossOf(v.lost, u) == Pair(0, 0)
    requires AccountedIn(c.meters[u], c.base[u], c.rows, LossOf(c.lost, u), u, up, true)
    ensures WeightFollows(c, v, u, up)
            <==> Direction(LossOf(c.lost, u), up) == Direction(LossOf(v.lost, u), up) + Direction(Forgets(v, u, c.meters[u].period), up)
  {
    TallyNoRows(v.rows, u, up, true);
  }

  lemma LossIsWeight(c: Child, v: Control, u: UserId, up: bool)
    requires u in c.meters && u in c.base && MemberFine(c, v, u) && Held(c, v, u)
    ensures WeightFollows(c, v, u, up)
            <==> Direction(LossOf(c.lost, u), up) == Direction(LossOf(v.lost, u), up) + Direction(Forgets(v, u, c.meters[u].period), up)
  {
    assert AccountedIn(c.meters[u], c.base[u], c.rows, LossOf(c.lost, u), u, up, true);
    if Metered(v, u) {
      assert AccountedIn(v.usage[u], c.base[u], v.rows, LossOf(v.lost, u), u, up, true);
      LossOfKnown(c, v, u, up);
    } else {
      LossOfNew(c, v, u, up);
    }
  }

  /** Whether both sides dropped the same can be read off their totals and rows. */
  lemma LossesShowInWeights(s: State, es: seq<Event>, t: State, u: UserId)
    requires Init(s) && Reaches(s, es, t) && u in t.child.meters && u in t.child.base
    ensures LossAgrees(t.child, t.control, u)
            <==> WeightFollows(t.child, t.control, u, true) && WeightFollows(t.child, t.control, u, false)
  {
    ReachableInv(s, es, t);
    assert MemberFine(t.child, t.control, u) && Held(t.child, t.control, u);
    LossIsWeight(t.child, t.control, u, true);
    LossIsWeight(t.child, t.control, u, false);
  }

  /** As Reportable, in terms of tables the two sides really hold. */
  ghost predicate Bookable(c: Child, v: Control, envelope: nat)
  {
    && envelope + PendingBytes(c) <= MAX_BYTES
    && |c.meters| <= MAX_USERS
    && (forall k :: Pending(c.rows, c.acks, k) ==> !k.rule.package)
    && (forall u :: u in c.meters && u in c.base ==> WeightFollows(c, v, u, true) && WeightFollows(c, v, u, false))
  }

  lemma BookableIsReportable(s: State, es: seq<Event>, t: State, envelope: nat)
    requires Init(s) && Reaches(s, es, t)
    ensures Bookable(t.child, t.control, envelope) <==> Reportable(t.child, t.control, envelope)
  {
    forall u | u in t.child.meters
      ensures u in t.child.base
      ensures LossAgrees(t.child, t.control, u)
              <==> WeightFollows(t.child, t.control, u, true) && WeightFollows(t.child, t.control, u, false)
    {
      ReachableInv(s, es, t);
      LossesShowInWeights(s, es, t, u);
    }
  }

  /** After any history, a report gets through and is accepted exactly when, with its rows, it stays
      within two mebibytes, it names at most 4096 members, no pending row is under the rule of a
      package, and every weighted total follows from what the controller booked and the rows since. */
  lemma BookedExactlyWhen(s: State, es: seq<Event>, t: State, rows: seq<Row>, envelope: nat)
    requires Init(s) && Reaches(s, es, t) && t.link.Idle? && Allowed(t, Ask(rows, envelope))
    ensures var a := Step(t, Ask(rows, envelope));
            (a.link.Asked? && Accepted(a.control, a.link.report)) <==> Bookable(t.child, t.control, envelope)
  {
    ReachableInv(s, es, t);
    AskedAccepted(t, rows, envelope);
    BookableIsReportable(s, es, t, envelope);
  }

  // ------------------------------------------------------------------ one exchange

  lemma NothingPending(rows: seq<Row>, table: map<Key, Pair>, acks: map<Key, Pair>, k: Key)
    requires Listing(rows, table, acks)
    ensures !Pending(table, Table(acks, rows), k)
  {
    TableHolds(acks, rows, k);
    if k in KeysOf(rows) {
      var i :| 0 <= i < |rows| && rows[i].key == k;
    } else {
      assert !Pending(table, acks, k);
    }
  }

  ghost predicate CaughtUp(was: Child, now: Child, v: Control)
  {
    && v.rows == was.rows == now.rows
    && (forall u :: u in was.meters ==> u in v.usage && v.usage[u] == was.meters[u])
    && forall k :: !Pending(now.rows, now.acks, k)
  }

  ghost predicate BooksMatch(v: Control, c: Child)
  {
    v.rows == c.rows && forall u :: u in c.meters ==> u in v.usage && v.usage[u] == c.meters[u]
  }

  lemma BookMatches(v: Control, c: Child, rows: seq<Row>, members: map<UserId, Period>, nodes: map<NodeId, Rule>)
    requires Listing(rows, c.rows, c.acks) && Below(c.acks, v.rows) && Below(v.rows, c.rows)
    ensures BooksMatch(Note(Book(v, Report(c, rows)), members, nodes), c)
  {
    BookedTable(v.rows, rows, c.rows, c.acks);
  }

  /** A state in which a request that will be accepted was served. */
  lemma ServeResult(t: State, rows: seq<Row>, envelope: nat, members: map<UserId, Period>, nodes: map<NodeId, Rule>, other: nat)
    requires Inv(t) && t.link.Idle? && Allowed(t, Ask(rows, envelope)) && Reportable(t.child, t.control, envelope)
    requires Allowed(t, Serve(true, members, nodes, other))
    ensures var b := Step(Step(t, Ask(rows, envelope)), Serve(true, members, nodes, other));
            && Inv(b) && b.child == t.child && BooksMatch(b.control, t.child)
            && b.control == Note(Book(t.control, Report(t.child, rows)), members, nodes)
            && b.link == (if other + AckBytes(rows) <= MAX_BYTES then Answered(rows, members, nodes) else Idle)
  {
    AskedAccepted(t, rows, envelope);
    AskKeepsInv(t, rows, envelope);
    var a := Step(t, Ask(rows, envelope));
    BookStep(a, members, nodes, other);
    BookKeepsInv(a, members, nodes, other);
    BookMatches(t.control, t.child, rows, members, nodes);
  }

  lemma AnswerArrives(b: State, c: Child, rows: seq<Row>, applied: bool)
    requires Inv(b) && b.child == c && b.link.Answered? && b.link.rows == rows && Listing(rows, c.rows, c.acks) && BooksMatch(b.control, c)
    ensures CaughtUp(c, Step(b, Deliver(applied)).child, b.control) && Step(b, Deliver(applied)).control == b.control
  {
    DeliverResult(b, applied);
    forall k ensures !Pending(c.rows, Table(c.acks, rows), k) {
      NothingPending(rows, c.rows, c.acks, k);
    }
  }

  /** What an exchange in which nothing gets lost makes of `t`. */
  ghost predicate Outcome(t: State, envelope: nat, reply: nat, done: State)
  {
    if !Bookable(t.child, t.control, envelope) then done == t
    else if reply > MAX_BYTES then done.child == t.child && done.link.Idle? && BooksMatch(done.control, t.child)
    else CaughtUp(t.child, done.child, done.control)
  }

  lemma BookedExchange(t: State, rows: seq<Row>, envelope: nat, members: map<UserId, Period>, nodes: map<NodeId, Rule>, other: nat,
                       applied: bool, b: State, done: State)
    requires Inv(t) && t.link.Idle? && Allowed(t, Ask(rows, envelope))
    requires Reportable(t.child, t.control, envelope) && Bookable(t.child, t.control, envelope)
    requires Allowed(t, Serve(true, members, nodes, other))
    requires b == Step(Step(t, Ask(rows, envelope)), Serve(true, members, nodes, other)) && done == Step(b, Deliver(applied))
    ensures Outcome(t, envelope, other + AckBytes(rows), done)
  {
    ServeResult(t, rows, envelope, members, nodes, other);
    if other + AckBytes(rows) <= MAX_BYTES {
      AnswerArrives(b, t.child, rows, applied);
    } else {
      NothingToDeliver(b, Deliver(applied));
    }
  }

  lemma NothingToDeliver(b: State, e: Event)
    requires b.link.Idle? && (e.Deliver? || e.Serve?)
    ensures Step(b, e) == b
  {
  }

  lemma RefusedServe(a: State, e: Event)
    requires a.link.Asked? && !Accepted(a.control, a.link.report) && e.Serve?
    ensures Step(a, e) == State(a.child, a.control, Idle)
  {
  }

  lemma RefusedExchange(t: State, rows: seq<Row>, envelope: nat, serve: Event, applied: bool, a: State, b: State)
    requires Inv(t) && t.link.Idle? && Allowed(t, Ask(rows, envelope)) && !Reportable(t.child, t.control, envelope)
    requires serve.Serve? && a == Step(t, Ask(rows, envelope)) && b == Step(a, serve)
    ensures Step(b, Deliver(applied)) == t
  {
    AskedAccepted(t, rows, envelope);
    if a.link.Asked? {
      RefusedServe(a, serve);
    } else {
      NothingToDeliver(a, serve);
    }
    NothingToDeliver(b, Deliver(applied));
  }

  /** After any history, one exchange in which nothing gets lost: if the report can be booked and the
      reply fits, the controller holds the child's rows and totals and nothing is left pending; if the
      reply is too large, the report is booked and the child does not learn of it; if the report
      cannot be booked, nothing changes on either side. */
  lemma OneExchangeCatchesUp(s: State, es: seq<Event>, t: State, rows: seq<Row>, envelope: nat, members: map<UserId, Period>,
                             nodes: map<NodeId, Rule>, other: nat, applied: bool)
    requires Init(s) && Reaches(s, es, t) && t.link.Idle?
    requires Allowed(t, Ask(rows, envelope)) && Allowed(t, Serve(true, members, nodes, other))
    ensures Outcome(t, envelope, other + AckBytes(rows),
                    Step(Step(Step(t, Ask(rows, envelope)), Serve(true, members, nodes, other)), Deliver(applied)))
  {
    ReachableInv(s, es, t);
    BookableIsReportable(s, es, t, envelope);
    var a := Step(t, Ask(rows, envelope));
    var b := Step(a, Serve(true, members, nodes, other));
    if Reportable(t.child, t.control, envelope) {
      BookedExchange(t, rows, envelope, members, nodes, other, applied, b, Step(b, Deliver(applied)));
    } else {
      RefusedExchange(t, rows, envelope, Serve(true, members, nodes, other), applied, a, b);
    }
  }
}
