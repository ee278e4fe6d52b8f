/** What no later step of a run takes back. */
module CryptoProgress {
  import opened Common
  import opened CryptoModel
  import opened CryptoSafety
  import opened CryptoScans

  /** A final transfer to one of the order's addresses is on record. */
  ghost predicate Recorded(db: Db, o: OrderId)
  {
    exists k :: k in db.transfers && db.transfers[k].invoice in db.invoices && db.invoices[db.transfers[k].invoice].order == o
  }

  /** Nothing recorded is forgotten, no cursor moves back, and a receipt is for good. */
  ghost predicate Remembered(s: Db, t: Db)
  {
    && (forall i :: i in s.invoices ==> i in t.invoices && SameTerms(s.invoices[i], t.invoices[i]) && (s.invoices[i].state == Paid ==> t.invoices[i].state == Paid))
    && (forall o :: o in s.orders ==> o in t.orders)
    && (forall k :: k in s.transfers ==> k in t.transfers && t.transfers[k] == s.transfers[k])
    && (forall ck :: ck in s.cursors ==> ck in t.cursors && t.cursors[ck].start == s.cursors[ck].start && s.cursors[ck].next <= t.cursors[ck].next)
    && s.frozen <= t.frozen
    && s.receipts <= t.receipts
  }

  /** Orders: after a recorded transfer an order keeps its invoice unless a stale write drops it, a switch
      is never undone, an expired order stays as it is and pays nothing. */
  ghost predicate OrdersKept(s: Db, t: Db, lost: set<InvoiceId>)
  {
    && (forall o :: o in s.orders && o in t.orders && s.orders[o].current.Some? && Recorded(s, o) ==>
          t.orders[o].current == s.orders[o].current || (t.orders[o] == Order(OrderExpired, None) && s.orders[o].current.value in lost))
    && (forall o, i :: o in s.orders && o in t.orders && i in s.invoices && t.orders[o].current == Some(i) ==> s.orders[o].current == Some(i))
    && (forall o :: o in s.orders && o in t.orders && s.orders[o].state == OrderExpired ==> t.orders[o] == s.orders[o])
    && (forall i :: i in s.invoices && i in t.invoices && ClosedUnpaid(s, i) ==> t.invoices[i].state != Paid)
  }

  ghost predicate ClosedUnpaid(s: Db, i: InvoiceId)
    requires i in s.invoices
  {
    && s.invoices[i].order in s.orders && s.orders[s.invoices[i].order].state == OrderExpired
    && s.invoices[i].state != Paid
  }

  /** Invoice `i` gains nothing: it does not become paid, nor does it activate its order. */
  ghost predicate Held(s: Db, t: Db, i: InvoiceId)
    requires i in s.invoices
  {
    var o := s.invoices[i].order;
    && (i in t.invoices && t.invoices[i].state == Paid ==> s.invoices[i].state == Paid)
    && (o in t.orders && t.orders[o].current == Some(i) ==>
          && o in s.orders && s.orders[o].current == Some(i)
          && (t.orders[o].state == Provisioning ==> s.orders[o].state == Provisioning)
          && (t.orders[o].state == Completed ==> s.orders[o].state == Completed))
  }

  ghost predicate FrozenHeld(s: Db, t: Db)
  {
    forall i :: i in s.invoices && s.invoices[i].chain in s.frozen ==> Held(s, t, i)
  }

  ghost predicate Later(s: Sys, t: Sys)
  {
    Remembered(s.db, t.db) && OrdersKept(s.db, t.db, t.dropped) && FrozenHeld(s.db, t.db) && s.dropped <= t.dropped
  }

  lemma RecordedStays(s: Db, t: Db, o: OrderId)
    requires Remembered(s, t) && Recorded(s, o)
    ensures Recorded(t, o)
  {
    var k :| k in s.transfers && s.transfers[k].invoice in s.invoices && s.invoices[s.transfers[k].invoice].order == o;
    assert k in t.transfers && t.transfers[k] == s.transfers[k];
  }

  lemma OrdersKeptTransitive(s: Db, t: Db, u: Db, early: set<InvoiceId>, late: set<InvoiceId>)
    requires Remembered(s, t) && Remembered(t, u) && early <= late
    requires OrdersKept(s, t, early) && OrdersKept(t, u, late)
    ensures OrdersKept(s, u, late)
  {
    forall o | o in s.orders && s.orders[o].current.Some? && Recorded(s, o) ensures Recorded(t, o) { RecordedStays(s, t, o); }
    forall i | i in s.invoices && ClosedUnpaid(s, i) ensures ClosedUnpaid(t, i) {}
  }

  lemma LaterTransitive(s: Sys, t: Sys, u: Sys)
    requires Later(s, t) && Later(t, u)
    ensures Later(s, u)
  {
    OrdersKeptTransitive(s.db, t.db, u.db, t.dropped, u.dropped);
    forall i | i in s.db.invoices && s.db.invoices[i].chain in s.db.frozen ensures Held(s.db, u.db, i)
    {
      assert Held(s.db, t.db, i) && Held(t.db, u.db, i);
    }
  }

  // ------------------------------------------------------------------ each step

  lemma CreatedHolds(s: Db, t: Db, n: NewInvoice)
    requires n.id !in s.invoices && Created(s, t, n)
    ensures FrozenHeld(s, t)
  {
    forall i | i in s.invoices ensures Held(s, t, i) {}
  }

  lemma CreatedIsRemembered(s: Db, t: Db, n: NewInvoice)
    requires n.id !in s.invoices && Created(s, t, n)
    ensures Remembered(s, t)
  {
  }

  lemma CreatedKeepsOrders(s: Sys, t: Sys, n: NewInvoice)
    requires InvoicesFine(s) && n.id !in s.db.invoices && Created(s.db, t.db, n)
    ensures OrdersKept(s.db, t.db, {})
  {
  }

  lemma CreatedIsLater(s: Sys, t: Sys, n: NewInvoice)
    requires InvoicesFine(s) && n.id !in s.db.invoices && Created(s.db, t.db, n) && t.dropped == s.dropped
    ensures Later(s, t)
  {
    CreatedHolds(s.db, t.db, n);
    CreatedIsRemembered(s.db, t.db, n);
    CreatedKeepsOrders(s, t, n);
    LostMore(s.db, t.db, {}, t.dropped);
  }

  lemma ScannedIsKept(s: Sys, t: Sys, w: Scan)
    requires CursorsFine(s) && Honest(s, w) && Scanned(s, t, w)
    ensures Remembered(s.db, t.db) && t.db.invoices == s.db.invoices && t.db.orders == s.db.orders
  {
  }

  lemma SettledIsKept(db: Db, eb: Db, i: InvoiceId, how: Outcome)
    requires Settled(db, eb, i, how)
    ensures Remembered(db, eb) && OrdersKept(db, eb, {})
  {
  }

  /** A scan pays an invoice only from its own network. */
  lemma OnlyOwnNetworkPays(s: Sys, t: Sys, w: Scan, e: Db, how: Outcome)
    requires Inv(s) && Honest(s, w) && Scanned(s, t, w) && Settled(t.db, e, w.invoice, how)
    requires w.chain != s.db.invoices[w.invoice].chain
    ensures e.invoices[w.invoice].state == Paid ==> s.db.invoices[w.invoice].state == Paid
  {
    ScannedConfirmed(s, t, w, w.invoice);
    assert Open(t.db, w.invoice) ==> Open(s.db, w.invoice);
  }

  lemma OtherInvoiceHolds(s: Db, t: Db, e: Db, i: InvoiceId, w: Scan, how: Outcome)
    requires t.invoices == s.invoices && t.orders == s.orders && Settled(t, e, w.invoice, how)
    requires i in s.invoices && i != w.invoice
    ensures Held(s, e, i)
  {
  }

  lemma ScanHolds(s: Sys, t: Sys, w: Scan, e: Db, how: Outcome)
    requires Inv(s) && Honest(s, w) && w.chain !in s.db.frozen && Scanned(s, t, w) && Settled(t.db, e, w.invoice, how)
    ensures FrozenHeld(s.db, e)
  {
    forall i | i in s.db.invoices && s.db.invoices[i].chain in s.db.frozen ensures Held(s.db, e, i)
    {
      if i == w.invoice {
        OnlyOwnNetworkPays(s, t, w, e, how);
      } else {
        OtherInvoiceHolds(s.db, t.db, e, i, w, how);
      }
    }
  }

  lemma RememberedTransitive(s: Db, t: Db, u: Db)
    requires Remembered(s, t) && Remembered(t, u)
    ensures Remembered(s, u)
  {
  }

  lemma SameOrdersKept(s: Db, t: Db)
    requires t.orders == s.orders && t.invoices == s.invoices
    ensures OrdersKept(s, t, {})
  {
  }

  lemma LostMore(s: Db, t: Db, few: set<InvoiceId>, more: set<InvoiceId>)
    requires OrdersKept(s, t, few) && few <= more
    ensures OrdersKept(s, t, more)
  {
  }

  lemma CommittedIsLater(s: Sys, w: Scan)
    requires Inv(s) && Honest(s, w) && w.chain !in s.db.frozen
    requires CursorKey(w.invoice, w.chain) in s.db.cursors && s.db.cursors[CursorKey(w.invoice, w.chain)].next == w.from
    ensures Later(s, Step(s, Apply(w)))
  {
    var t := HonestScanCommits(s, w);
    var how := ScanStepDoes(s, t, w);
    var e := Step(s, Apply(w)).db;
    ScannedIsKept(s, t, w);
    SameOrdersKept(s.db, t.db);
    SettledIsKept(t.db, e, w.invoice, how);
    ScanHolds(s, t, w, e, how);
    RememberedTransitive(s.db, t.db, e);
    OrdersKeptTransitive(s.db, t.db, e, {}, {});
    LostMore(s.db, e, {}, s.dropped);
  }

  lemma UnchangedIsLater(s: Sys, t: Sys)
    requires t.db == s.db.(cursors := t.db.cursors, frozen := t.db.frozen) && t.dropped == s.dropped
    requires forall ck :: ck in s.db.cursors ==> ck in t.db.cursors && t.db.cursors[ck] == s.db.cursors[ck]
    requires s.db.frozen <= t.db.frozen
    ensures Later(s, t)
  {
  }

  lemma IdleScan(s: Sys, w: Scan)
    requires w.chain in s.db.frozen || CursorKey(w.invoice, w.chain) !in s.db.cursors || s.db.cursors[CursorKey(w.invoice, w.chain)].next != w.from
    ensures Step(s, Apply(w)) == s.(db := s.db.(frozen := Step(s, Apply(w)).db.frozen)) && s.db.frozen <= Step(s, Apply(w)).db.frozen
  {
  }

  lemma ScanIsLater(s: Sys, w: Scan)
    requires Inv(s) && Honest(s, w)
    ensures Later(s, Step(s, Apply(w)))
  {
    if w.chain in s.db.frozen || CursorKey(w.invoice, w.chain) !in s.db.cursors || s.db.cursors[CursorKey(w.invoice, w.chain)].next != w.from {
      IdleScan(s, w);
      UnchangedIsLater(s, Step(s, Apply(w)));
    } else {
      CommittedIsLater(s, w);
    }
  }

  lemma CreateIsLater(s: Sys, n: NewInvoice)
    requires InvoicesFine(s) && n.id !in s.db.invoices
    ensures Later(s, Step(s, Create(n)))
  {
    CreateDoes(s.db, n);
    if CreateInvoice(s.db, n).Ok? {
      CreatedIsLater(s, Step(s, Create(n)), n);
    } else {
      UnchangedIsLater(s, s);
    }
  }

  lemma PlaceIsLater(s: Sys, o: OrderId)
    requires InvoicesFine(s)
    ensures Later(s, Step(s, PlaceOrder(o)))
  {
    var t := Step(s, PlaceOrder(o));
    if o in s.db.orders {
      UnchangedIsLater(s, s);
    } else {
      LostMore(s.db, t.db, {}, t.dropped);
    }
  }

  lemma ActedIsLater(s: Sys, t: Sys, o: OrderId)
    requires Acted(s.db, t.db, o) && t.dropped == s.dropped
    ensures Later(s, t)
  {
    LostMore(s.db, t.db, {}, t.dropped);
  }

  lemma ActionIsLater(s: Sys, e: Event)
    requires InvoicesFine(s)
    requires e.PlaceOrder? || e.Halt? || e.Confirm? || e.Fulfil? || e.Fail? || e.Cancel? || e.Refund? || e.Read?
    ensures Later(s, Step(s, e))
  {
    if e.PlaceOrder? {
      PlaceIsLater(s, e.order);
    } else if e.Halt? || e.Read? {
      UnchangedIsLater(s, Step(s, e));
    } else {
      StepActs(s, e);
      if Step(s, e) == s {
        UnchangedIsLater(s, s);
      } else {
        ActedIsLater(s, Step(s, e), e.order);
      }
    }
  }

  lemma WrittenHolds(s: Sys, o: OrderId)
    ensures FrozenHeld(s.db, ExpireRead(s, o).db)
  {
  }

  lemma ExpireIsLater(s: Sys, o: OrderId)
    ensures Later(s, Step(s, Expire(o)))
  {
    if o in s.read {
      WrittenHolds(s, o);
    } else {
      UnchangedIsLater(s, s);
    }
  }

  lemma FinalizeIsLater(s: Sys, c: ChainId, n: Chain)
    ensures Later(s, Step(s, Finalize(c, n)))
  {
    UnchangedIsLater(s, Step(s, Finalize(c, n)));
  }

  lemma FirstScanIsLater(s: Sys, k: CursorKey, start: nat)
    ensures Later(s, Step(s, FirstScan(k, start)))
  {
    UnchangedIsLater(s, Step(s, FirstScan(k, start)));
  }

  lemma StepIsLater(s: Sys, e: Event)
    requires Inv(s) && Allowed(s, e)
    ensures Later(s, Step(s, e))
  {
    match e
    case Finalize(c, n) => FinalizeIsLater(s, c, n);
    case Create(n) => CreateIsLater(s, n);
    case FirstScan(k, start) => FirstScanIsLater(s, k, start);
    case Apply(w) => ScanIsLater(s, w);
    case Expire(o) => ExpireIsLater(s, o);
    case _ => ActionIsLater(s, e);
  }

  lemma {:induction false} RunIsLater(s: Sys, es: seq<Event>, t: Sys)
    requires Inv(s) && Reaches(s, es, t)
    ensures Later(s, t)
    decreases |es|
  {
    if es == [] {
      UnchangedIsLater(s, s);
    } else {
      StepIsLater(s, es[0]);
      StepKeepsInv(s, es[0]);
      RunIsLater(Step(s, es[0]), es[1..], t);
      LaterTransitive(s, Step(s, es[0]), t);
    }
  }

  // ------------------------------------------------------------------ theorems

  /** From any reachable state on: cursors never move back, stored transfers and receipts stay, paid is never left. */
  lemma NothingIsForgotten(s: Sys, es: seq<Event>, t: Sys, fs: seq<Event>, u: Sys)
    requires Init(s) && Reaches(s, es, t) && Reaches(t, fs, u)
    ensures Remembered(t.db, u.db)
  {
    InitIsInv(s);
    RunKeepsInv(s, es, t);
    RunIsLater(t, fs, u);
  }

  /** Once a transfer to any of an order's addresses is recorded, its invoice is never switched again. The
      order loses it in one case only: a stale write dropped exactly this invoice, and the order is expired. */
  lemma NoSwitchAfterTransfer(s: Sys, es: seq<Event>, t: Sys, fs: seq<Event>, u: Sys, o: OrderId)
    requires Init(s) && Reaches(s, es, t) && Reaches(t, fs, u)
    requires o in t.db.orders && t.db.orders[o].current.Some? && Recorded(t.db, o)
    ensures o in u.db.orders
    ensures u.db.orders[o].current == t.db.orders[o].current <==> t.db.orders[o].current.value !in u.dropped
    ensures u.db.orders[o].current != t.db.orders[o].current ==> u.db.orders[o] == Order(OrderExpired, None)
  {
    InitIsInv(s);
    RunKeepsInv(s, es, t);
    RunIsLater(t, fs, u);
    RunKeepsInv(t, fs, u);
    var i := t.db.orders[o].current.value;
    assert Placed(u, i);
  }

  /** An invoice that its order lost before it was paid is never paid, whatever arrives on the chain. */
  lemma DroppedIsNeverPaid(s: Sys, es: seq<Event>, t: Sys, fs: seq<Event>, u: Sys, i: InvoiceId)
    requires Init(s) && Reaches(s, es, t) && Reaches(t, fs, u)
    requires i in t.dropped && i in t.db.invoices && t.db.invoices[i].state != Paid
    ensures i in u.db.invoices && u.db.invoices[i].state != Paid
    ensures forall r :: r in u.db.receipts ==> r.invoice != i
  {
    InitIsInv(s);
    RunKeepsInv(s, es, t);
    RunIsLater(t, fs, u);
    RunKeepsInv(t, fs, u);
    assert Placed(t, i);
    assert ClosedUnpaid(t.db, i);
    forall r | r in u.db.receipts ensures r.invoice != i { assert ReceiptFine(u, r); }
  }

  /** Once an invoice's network is frozen it never becomes paid and never activates its order,
      whatever scans of other networks still settle. */
  lemma FrozenNetworkPaysNothing(s: Sys, es: seq<Event>, t: Sys, fs: seq<Event>, u: Sys, i: InvoiceId)
    requires Init(s) && Reaches(s, es, t) && Reaches(t, fs, u)
    requires i in t.db.invoices && t.db.invoices[i].chain in t.db.frozen
    ensures Held(t.db, u.db, i)
  {
    InitIsInv(s);
    RunKeepsInv(s, es, t);
    RunIsLater(t, fs, u);
  }

  /** Freezing a network by hand stops its invoices from there on, and changes nothing else at once. */
  lemma FreezingStopsPayments(s: Sys, es: seq<Event>, t: Sys, c: ChainId, fs: seq<Event>, u: Sys, i: InvoiceId)
    requires Init(s) && Reaches(s, es, t) && Reaches(Step(t, Halt(c)), fs, u)
    requires i in t.db.invoices && t.db.invoices[i].chain == c
    ensures Step(t, Halt(c)) == t.(db := t.db.(frozen := t.db.frozen + {c}))
    ensures Held(t.db, u.db, i) && c in u.db.frozen
  {
    InitIsInv(s);
    RunKeepsInv(s, es, t);
    var h := Step(t, Halt(c));
    StepKeepsInv(t, Halt(c));
    RunIsLater(h, fs, u);
    assert Held(h.db, u.db, i);
  }

  lemma {:induction false} ScanStaysHonest(s: Sys, es: seq<Event>, t: Sys, w: Scan)
    requires Inv(s) && Reaches(s, es, t) && Honest(s, w)
    ensures Honest(t, w)
    decreases |es|
  {
    if es != [] {
      StepKeepsInv(s, es[0]);
      StepIsLater(s, es[0]);
      StaleAfterStep(s, es[0], w);
      ScanStaysHonest(Step(s, es[0]), es[1..], t, w);
    }
  }

  /** A window that was honest when it was read stays honest, so a stale or duplicate worker is
      covered by `Apply` at any later point of the run. */
  lemma StaleScansStayHonest(s: Sys, es: seq<Event>, t: Sys, fs: seq<Event>, u: Sys, w: Scan)
    requires Init(s) && Reaches(s, es, t) && Reaches(t, fs, u) && Honest(t, w)
    ensures Honest(u, w)
  {
    InitIsInv(s);
    RunKeepsInv(s, es, t);
    ScanStaysHonest(t, fs, u, w);
  }

  /** The final part of every network only grows. */
  ghost predicate ChainsGrow(s: Sys, t: Sys)
  {
    t.catalog == s.catalog && forall c :: c in s.chains ==> c in t.chains && Extends(s.chains[c], t.chains[c])
  }

  lemma StepGrowsChains(s: Sys, e: Event)
    requires Allowed(s, e)
    ensures ChainsGrow(s, Step(s, e))
  {
  }

  lemma HonestFollows(s: Sys, t: Sys, w: Scan)
    requires ChainsFine(s) && Honest(s, w) && ChainsGrow(s, t) && Remembered(s.db, t.db)
    ensures Honest(t, w)
  {
  }

  lemma StaleAfterStep(s: Sys, e: Event, w: Scan)
    requires ChainsFine(s) && Allowed(s, e) && Honest(s, w) && Remembered(s.db, Step(s, e).db)
    ensures Honest(Step(s, e), w)
  {
    StepGrowsChains(s, e);
    HonestFollows(s, Step(s, e), w);
  }

}
