/** The clock against the payer: when the worker's stale write takes an invoice from its order, exactly,
    and a run in which a payment complete in time is lost that way. */
module CryptoExpiry {
  import opened Common
  import opened CryptoModel
  import opened CryptoSafety
  import opened CryptoScans
  import opened CryptoTheorems

  // ------------------------------------------------------------------ the exact condition

  /** An invoice creation for order `o` commits somewhere in the events `gs`. */
  ghost predicate CreatesFor(s: Sys, gs: seq<Event>, o: OrderId)
    decreases |gs|
  {
    gs != [] && (CommitsFor(s, gs[0], o) || CreatesFor(Step(s, gs[0]), gs[1..], o))
  }

  ghost predicate CommitsFor(s: Sys, e: Event, o: OrderId)
  {
    e.Create? && e.invoice.order == o && CreateInvoice(s.db, e.invoice).Ok?
  }

  /** The write of order `o` by the worker takes an invoice from it. */
  ghost predicate Drops(s: Sys, o: OrderId)
  {
    Step(s, Expire(o)).dropped != s.dropped
  }

  ghost predicate PendingOrder(s: Sys, o: OrderId) { o in s.db.orders && s.db.orders[o].state == Pending }

  lemma SettledCurrent(db: Db, eb: Db, i: InvoiceId, how: Outcome, o: OrderId)
    requires Settled(db, eb, i, how) && o in db.orders
    ensures o in eb.orders && eb.orders[o].current == db.orders[o].current
    ensures eb.orders[o].state == Pending ==> db.orders[o].state == Pending
  {
  }

  lemma ScannedOrders(s: Sys, t: Sys, w: Scan)
    requires Scanned(s, t, w)
    ensures t.db.orders == s.db.orders
  {
  }

  /** From `s` by event `e` to `t`: order `o` has an invoice and is pending only if it was before, or `e` gave it one. */
  ghost predicate CurrentFollows(s: Sys, e: Event, t: Sys, o: OrderId)
    requires o in s.db.orders
  {
    && o in t.db.orders
    && (PendingOrder(t, o) ==>
          PendingOrder(s, o) && (t.db.orders[o].current.Some? <==> s.db.orders[o].current.Some? || CommitsFor(s, e, o)))
  }

  lemma CommittedCurrent(s: Sys, t: Sys, w: Scan, u: Sys, how: Outcome, o: OrderId)
    requires Scanned(s, t, w) && Settled(t.db, u.db, w.invoice, how) && o in s.db.orders
    ensures CurrentFollows(s, Apply(w), u, o)
  {
    ScannedOrders(s, t, w);
    SettledCurrent(t.db, u.db, w.invoice, how, o);
  }

  lemma IdleScanCurrent(s: Sys, w: Scan, o: OrderId)
    requires w.chain in s.db.frozen || CursorKey(w.invoice, w.chain) !in s.db.cursors || s.db.cursors[CursorKey(w.invoice, w.chain)].next != w.from
    requires o in s.db.orders
    ensures CurrentFollows(s, Apply(w), Step(s, Apply(w)), o)
  {
    if w.chain in s.db.frozen { FrozenScan(s, w); } else { StaleScanKeeps(s, w); }
  }

  lemma ScanCurrent(s: Sys, w: Scan, o: OrderId)
    requires Inv(s) && Honest(s, w) && o in s.db.orders
    ensures CurrentFollows(s, Apply(w), Step(s, Apply(w)), o)
  {
    var ck := CursorKey(w.invoice, w.chain);
    if w.chain in s.db.frozen || ck !in s.db.cursors || s.db.cursors[ck].next != w.from {
      IdleScanCurrent(s, w, o);
    } else {
      var t := HonestScanCommits(s, w);
      var how := ScanStepDoes(s, t, w);
      CommittedCurrent(s, t, w, Step(s, Apply(w)), how, o);
    }
  }

  lemma CreateCurrent(s: Sys, n: NewInvoice, o: OrderId)
    requires o in s.db.orders
    ensures CurrentFollows(s, Create(n), Step(s, Create(n)), o)
  {
    CreateDoes(s.db, n);
  }

  lemma ActionCurrent(s: Sys, e: Event, o: OrderId)
    requires e.PlaceOrder? || e.Halt? || e.Confirm? || e.Fulfil? || e.Fail? || e.Cancel? || e.Refund? || e.Read?
    requires o in s.db.orders
    ensures CurrentFollows(s, e, Step(s, e), o)
  {
    ActionsAreOrderActions(s, e);
  }

  lemma ExpireCurrent(s: Sys, p: OrderId, o: OrderId)
    requires o in s.db.orders
    ensures CurrentFollows(s, Expire(p), Step(s, Expire(p)), o)
  {
  }

  lemma ChainCurrent(s: Sys, e: Event, o: OrderId)
    requires (e.Finalize? || e.FirstScan?) && o in s.db.orders
    ensures CurrentFollows(s, e, Step(s, e), o)
  {
  }

  /** While an order stays pending, only a committed creation gives it an invoice. */
  lemma StepCurrent(s: Sys, e: Event, o: OrderId)
    requires Inv(s) && Allowed(s, e) && o in s.db.orders
    ensures CurrentFollows(s, e, Step(s, e), o)
  {
    match e
    case Finalize(_, _) => ChainCurrent(s, e, o);
    case FirstScan(_, _) => ChainCurrent(s, e, o);
    case Create(n) => CreateCurrent(s, n, o);
    case Apply(w) => ScanCurrent(s, w, o);
    case Expire(p) => ExpireCurrent(s, p, o);
    case _ => ActionCurrent(s, e, o);
  }

  /** A document that was read is only given up by a write, which ends the pending state. */
  lemma StepRead(s: Sys, e: Event, o: OrderId)
    requires o in s.read && o in s.db.orders
    ensures o in Step(s, e).read || (e == Expire(o) && !PendingOrder(Step(s, e), o))
  {
  }

  lemma {:induction false} RunCurrent(s: Sys, gs: seq<Event>, t: Sys, o: OrderId)
    requires Inv(s) && Reaches(s, gs, t) && o in s.db.orders
    ensures o in t.db.orders
    ensures PendingOrder(t, o) ==> (t.db.orders[o].current.Some? <==> s.db.orders[o].current.Some? || CreatesFor(s, gs, o))
    ensures PendingOrder(t, o) ==> PendingOrder(s, o) && (o in s.read ==> o in t.read)
    decreases |gs|
  {
    if gs != [] {
      var m := Step(s, gs[0]);
      StepCurrent(s, gs[0], o);
      StepKeepsInv(s, gs[0]);
      if o in s.read { StepRead(s, gs[0], o); }
      RunCurrent(m, gs[1..], t, o);
    }
  }

  /** Between the worker's read of a pending order without a payment and its write, over every run: the write
      drops an invoice if and only if a creation for that order committed in between and the order is still
      pending. The worker could tell by comparing the stored document with the one it read. */
  lemma DropsExactlyWhen(s: Sys, es: seq<Event>, t: Sys, gs: seq<Event>, u: Sys, o: OrderId)
    requires Init(s) && Reaches(s, es, t) && o in t.db.orders && t.db.orders[o] == Order(Pending, None)
    requires Reaches(Step(t, Read(o)), gs, u)
    ensures Drops(u, o) <==> PendingOrder(u, o) && CreatesFor(Step(t, Read(o)), gs, o)
    ensures Drops(u, o) ==> PendingOrder(u, o) && u.db.orders[o].current.Some? && Step(u, Expire(o)).db.orders[o] == Order(OrderExpired, None)
  {
    InitIsInv(s);
    RunKeepsInv(s, es, t);
    StepKeepsInv(t, Read(o));
    RunKeepsInv(Step(t, Read(o)), gs, u);
    RunCurrent(Step(t, Read(o)), gs, u, o);
    DropsNow(u, o);
  }

  /** What a write does to the order it finds. */
  lemma DropsNow(u: Sys, o: OrderId)
    requires InvoicesFine(u) && Whereabouts(u)
    ensures Drops(u, o) <==> o in u.read && PendingOrder(u, o) && u.db.orders[o].current.Some?
    ensures Drops(u, o) ==> Step(u, Expire(o)).db.orders[o] == Order(OrderExpired, None)
  {
    if o in u.read && PendingOrder(u, o) && u.db.orders[o].current.Some? {
      var i := u.db.orders[o].current.value;
      assert Placed(u, i);
      assert i in Step(u, Expire(o)).dropped && i !in u.dropped;
    }
  }

  // ------------------------------------------------------------------ a payment that is lost

  lemma {:induction false} ReachesThen(s: Sys, es: seq<Event>, t: Sys, e: Event)
    requires Reaches(s, es, t) && Allowed(t, e)
    ensures Reaches(s, es + [e], Step(t, e))
    decreases |es|
  {
    if es == [] {
      assert ([] + [e])[1..] == [];
      assert Reaches(Step(t, e), [], Step(t, e));
    } else {
      assert (es + [e])[0] == es[0] && (es + [e])[1..] == es[1..] + [e];
      ReachesThen(Step(s, es[0]), es[1..], t, e);
    }
  }

  const Early := Chain([Head(100, 0)], [])
  /** Block 1 pays ten atoms at time 5. */
  const Payment := Log(1, 0, 7, 10, 77, 0)
  const Paying := Chain([Head(100, 0), Head(101, 5), Head(102, 20)], [Payment])
  const Bill := NewInvoice(0, 0, 0, 0, 7, 10, 1, 10, 0)
  const Window := Scan(0, 0, 0, 2, 3, None, 2, 20, [Item(Payment, 101, 5, true)])
  const Start := Sys(Db(map[], map[], [], map[], map[], map[], {}), map[0 := Early], {Asset(0, 0)}, {}, {})

  /** Order placed, read by the worker, and billed. */
  lemma Billed() returns (es: seq<Event>, t: Sys)
    ensures Init(Start) && Reaches(Start, es, t) && t.read == {0} && t.dropped == {}
    ensures t.chains == Start.chains && t.catalog == Start.catalog
    ensures t.db == Start.db.(invoices := map[0 := Invoice(0, 0, 0, 7, 10, 1, 10, 0, Waiting, Awaiting)],
                              orders := map[0 := Order(Pending, Some(0))])
  {
    es, t := [], Start;
    ReachesThen(Start, es, t, PlaceOrder(0));
    es, t := es + [PlaceOrder(0)], Step(t, PlaceOrder(0));
    ReachesThen(Start, es, t, Read(0));
    es, t := es + [Read(0)], Step(t, Read(0));
    assert OrderInvoices(t.db, 0) == {};
    ReachesThen(Start, es, t, Create(Bill));
    es, t := es + [Create(Bill)], Step(t, Create(Bill));
    assert t.db.invoices == map[0 := Invoice(0, 0, 0, 7, 10, 1, 10, 0, Waiting, Awaiting)];
    assert t.db.orders == map[0 := Order(Pending, Some(0))];
  }

  /** Then written back as expired. */
  lemma BillIsDropped() returns (es: seq<Event>, t: Sys)
    ensures Init(Start) && Reaches(Start, es, t)
    ensures t.chains == Start.chains && t.catalog == Start.catalog && t.dropped == {0}
    ensures t.db == Start.db.(invoices := map[0 := Invoice(0, 0, 0, 7, 10, 1, 10, 0, Waiting, Awaiting)],
                              orders := map[0 := Order(OrderExpired, None)])
  {
    es, t := Billed();
    ReachesThen(Start, es, t, Expire(0));
    es, t := es + [Expire(0)], Step(t, Expire(0));
    assert t.db.orders == map[0 := Order(OrderExpired, None)];
  }

  lemma WindowIsTrue(s: Sys)
    requires 0 in s.db.invoices && s.db.invoices[0].address == 7 && s.chains == map[0 := Paying] && s.catalog == {Asset(0, 0)}
    ensures Honest(s, Window)
  {
    assert Paying.logs[0] == Payment;
    assert Window.items[0] == ItemAt(Paying, Payment);
  }

  /** The payment reaches the final chain and the scanner begins to read it. */
  lemma PaymentArrives(fs: seq<Event>, s: Sys) returns (es: seq<Event>, t: Sys)
    requires Reaches(Start, fs, s) && s.chains == Start.chains && s.catalog == Start.catalog
    requires 0 in s.db.invoices && s.db.invoices[0] == Invoice(0, 0, 0, 7, 10, 1, 10, 0, Waiting, Awaiting) && s.db.cursors == map[]
    ensures Reaches(Start, es, t) && t.chains == map[0 := Paying]
    ensures t == s.(chains := t.chains, db := s.db.(cursors := t.db.cursors))
    ensures CursorKey(0, 0) in t.db.cursors && t.db.cursors[CursorKey(0, 0)].next == 0
  {
    ReachesThen(Start, fs, s, Finalize(0, Paying));
    es, t := fs + [Finalize(0, Paying)], Step(s, Finalize(0, Paying));
    assert t.chains == map[0 := Paying];
    ReachesThen(Start, es, t, FirstScan(CursorKey(0, 0), 0));
    es, t := es + [FirstScan(CursorKey(0, 0), 0)], Step(t, FirstScan(CursorKey(0, 0), 0));
  }

  lemma PaidInTime(t: Sys)
    requires 0 in t.db.invoices && t.db.invoices[0].(state := Waiting, attempt := Awaiting) == Invoice(0, 0, 0, 7, 10, 1, 10, 0, Waiting, Awaiting)
    requires t.chains == map[0 := Paying]
    ensures InTimeAtoms(t, 0) == 10 && InTimeBelow(t, 0, 1, 3) == 10
  {
    assert Paying.logs[0] == Payment;
    assert InTime(t, 0, 0);
    assert InTimeBelow(t, 0, 0, 3) == 0;
  }

  /** What the scan of the payment leaves: the invoice is flagged, and nothing else changes. */
  lemma ScanFlags(s: Sys)
    requires Inv(s) && 0 in s.dropped && 0 in s.db.invoices && s.chains == map[0 := Paying] && s.catalog == {Asset(0, 0)}
    requires s.db.invoices[0] == Invoice(0, 0, 0, 7, 10, 1, 10, 0, Waiting, Awaiting)
    requires CursorKey(0, 0) in s.db.cursors && s.db.cursors[CursorKey(0, 0)].next == 0 && s.db.frozen == {}
    requires s.db.orders == map[0 := Order(OrderExpired, None)]
    ensures var t := Step(s, Apply(Window));
            && Allowed(s, Apply(Window)) && t.chains == s.chains && t.db.orders == s.db.orders && t.dropped == s.dropped
            && 0 in t.db.invoices && t.db.invoices[0] == s.db.invoices[0].(state := ReviewRequired)
  {
    WindowIsTrue(s);
    var m := HonestScanCommits(s, Window);
    var how := ScanStepDoes(s, m, Window);
    PaidInTime(m);
    ConfirmedIsInTime(m, 0);
  }

  lemma DroppedAndPaid() returns (es: seq<Event>, s: Sys)
    ensures Init(Start) && Reaches(Start, es, s) && Inv(s) && 0 in s.dropped && 0 in s.db.invoices && s.chains == map[0 := Paying]
    ensures s.catalog == {Asset(0, 0)} && s.db.frozen == {} && s.db.orders == map[0 := Order(OrderExpired, None)]
    ensures s.db.invoices[0] == Invoice(0, 0, 0, 7, 10, 1, 10, 0, Waiting, Awaiting)
    ensures CursorKey(0, 0) in s.db.cursors && s.db.cursors[CursorKey(0, 0)].next == 0
  {
    var ds, d := BillIsDropped();
    es, s := PaymentArrives(ds, d);
    InitIsInv(Start);
    RunKeepsInv(Start, es, s);
  }

  lemma ScanLosesIt(s: Sys) returns (t: Sys)
    requires Inv(s) && 0 in s.dropped && 0 in s.db.invoices && s.chains == map[0 := Paying]
    requires s.catalog == {Asset(0, 0)} && s.db.frozen == {} && s.db.orders == map[0 := Order(OrderExpired, None)]
    requires s.db.invoices[0] == Invoice(0, 0, 0, 7, 10, 1, 10, 0, Waiting, Awaiting)
    requires CursorKey(0, 0) in s.db.cursors && s.db.cursors[CursorKey(0, 0)].next == 0
    ensures Allowed(s, Apply(Window)) && t == Step(s, Apply(Window)) && 0 in t.db.invoices && 0 in t.dropped
    ensures t.db.invoices[0] == Invoice(0, 0, 0, 7, 10, 1, 10, 0, ReviewRequired, Awaiting) && t.chains == map[0 := Paying]
    ensures InTimeAtoms(t, 0) == 10 && t.db.orders == map[0 := Order(OrderExpired, None)]
    ensures forall r :: r in t.db.receipts ==> r.invoice != 0
  {
    ScanFlags(s);
    t := Step(s, Apply(Window));
    PaidInTime(t);
    StepKeepsInv(s, Apply(Window));
    NoReceipt(t, 0);
  }

  /** A payment complete in time, on an invoice that was never switched away, ends under review without a
      receipt while its order is expired: the run exists. */
  lemma PaidInvoiceIsLost() returns (es: seq<Event>, t: Sys)
    ensures Init(Start) && Reaches(Start, es, t)
    ensures 0 in t.db.invoices && t.db.invoices[0].chain in t.chains && InTimeAtoms(t, 0) >= t.db.invoices[0].expected
    ensures t.db.invoices[0].attempt == Awaiting && t.db.invoices[0].state == ReviewRequired
    ensures t.db.orders == map[t.db.invoices[0].order := Order(OrderExpired, None)] && 0 in t.dropped
    ensures forall r :: r in t.db.receipts ==> r.invoice != 0
  {
    var fs, s := DroppedAndPaid();
    t := ScanLosesIt(s);
    ReachesThen(Start, fs, s, Apply(Window));
    es := fs + [Apply(Window)];
  }

  lemma NoReceipt(t: Sys, i: InvoiceId)
    requires Inv(t) && i in t.db.invoices && t.db.invoices[i].state != Paid
    ensures forall r :: r in t.db.receipts ==> r.invoice != i
  {
    forall r | r in t.db.receipts ensures r.invoice != i { assert ReceiptFine(t, r); }
  }

  // ------------------------------------------------------------------ an order lost after its payment

  lemma ScanPays(s: Sys)
    requires Inv(s) && 0 in s.db.invoices && s.chains == map[0 := Paying] && s.catalog == {Asset(0, 0)}
    requires s.db.invoices[0] == Invoice(0, 0, 0, 7, 10, 1, 10, 0, Waiting, Awaiting)
    requires CursorKey(0, 0) in s.db.cursors && s.db.cursors[CursorKey(0, 0)].next == 0 && s.db.frozen == {}
    requires s.db.orders == map[0 := Order(Pending, Some(0))]
    ensures var t := Step(s, Apply(Window));
            && Allowed(s, Apply(Window)) && t.db.orders == s.db.orders && t.read == s.read && t.dropped == s.dropped
            && t.db.receipts == s.db.receipts + [Receipt(0, 0)] && t.chains == s.chains
            && 0 in t.db.invoices && t.db.invoices[0] == s.db.invoices[0].(state := Paid, attempt := AttemptPaid)
  {
    WindowIsTrue(s);
    var m := HonestScanCommits(s, Window);
    var how := ScanStepDoes(s, m, Window);
    PaidInTime(m);
    ConfirmedIsInTime(m, 0);
  }

  lemma BilledAndPaid() returns (es: seq<Event>, s: Sys)
    ensures Reaches(Start, es, s) && Inv(s) && s.read == {0} && s.dropped == {} && 0 in s.db.invoices && s.chains == map[0 := Paying]
    ensures s.catalog == {Asset(0, 0)} && s.db.frozen == {} && s.db.orders == map[0 := Order(Pending, Some(0))] && s.db.receipts == []
    ensures s.db.invoices[0] == Invoice(0, 0, 0, 7, 10, 1, 10, 0, Waiting, Awaiting)
    ensures CursorKey(0, 0) in s.db.cursors && s.db.cursors[CursorKey(0, 0)].next == 0
  {
    var bs, b := Billed();
    es, s := PaymentArrives(bs, b);
    InitIsInv(Start);
    RunKeepsInv(Start, es, s);
  }

  lemma WrittenBack(p: Sys)
    requires p.db.orders == map[0 := Order(Pending, Some(0))] && p.read == {0}
    ensures var t := Step(p, Expire(0));
            && t.db == p.db.(orders := map[0 := Order(OrderExpired, None)]) && 0 in t.dropped && Allowed(p, Expire(0))
  {
    assert Step(p, Expire(0)).db.orders == map[0 := Order(OrderExpired, None)];
  }

  lemma PaidFirst() returns (es: seq<Event>, p: Sys)
    ensures Reaches(Start, es, p) && p.db.receipts == [Receipt(0, 0)] && 0 in p.db.invoices && p.db.invoices[0].state == Paid
    ensures p.db.orders == map[0 := Order(Pending, Some(0))] && p.read == {0}
  {
    var fs, s := BilledAndPaid();
    ScanPays(s);
    p := Step(s, Apply(Window));
    ReachesThen(Start, fs, s, Apply(Window));
    es := fs + [Apply(Window)];
  }

  /** An invoice that was paid in time and settled with a receipt is lost to its order all the same: the run
      exists. */
  lemma PaidOrderIsExpired() returns (es: seq<Event>, t: Sys)
    ensures Init(Start) && Reaches(Start, es, t)
    ensures t.db.receipts == [Receipt(0, 0)] && 0 in t.db.invoices && t.db.invoices[0].state == Paid
    ensures t.db.orders == map[0 := Order(OrderExpired, None)] && 0 in t.dropped
  {
    var fs, p := PaidFirst();
    WrittenBack(p);
    ReachesThen(Start, fs, p, Expire(0));
    es, t := fs + [Expire(0)], Step(p, Expire(0));
  }
}
