/** What an order's state says about its payment, in both directions: which attempts are paid, expired,
    completed or to be refunded, and exactly when an order action goes through. */
module CryptoOrders {
  import opened Common
  import opened CryptoModel
  import opened CryptoSafety
  import opened CryptoScans
  import opened CryptoTheorems

  predicate Live(v: Invoice) { v.state == Waiting || v.state == ReviewRequired }

  /** The attempt of an order's current invoice, by the order's state. */
  predicate AttemptFits(state: OrderState, v: Invoice)
  {
    match state
    case Pending => if v.state == Paid then v.attempt == AttemptPaid else Live(v) && v.attempt == Awaiting
    case Provisioning => v.state == Paid && v.attempt == AttemptPaid
    case Completed => v.state == Paid && v.attempt == AttemptCompleted
    case OrderExpired => v.state != Paid && v.attempt == AttemptExpired
    case Cancelled => v.attempt == if v.state == Paid then RefundRequired else AttemptCancelled
    case Failed => v.state == Paid && v.attempt == RefundRequired
  }

  /** The same for every invoice: switched away and never paid, or dropped by a stale write. */
  ghost predicate Fits(s: Sys, i: InvoiceId)
    requires i in s.db.invoices && s.db.invoices[i].order in s.db.orders
  {
    var v := s.db.invoices[i];
    var o := s.db.orders[v.order];
    if o.current == Some(i) then AttemptFits(o.state, v)
    else if i in s.dropped then AttemptFits(Pending, v)
    else v.state != Paid && v.attempt == AttemptCancelled
  }

  ghost predicate Agreed(s: Sys)
  {
    forall i :: i in s.db.invoices && s.db.invoices[i].order in s.db.orders ==> Fits(s, i)
  }

  // ------------------------------------------------------------------ each step

  lemma SameFits(s: Sys, t: Sys)
    requires InvoicesFine(s) && Agreed(s) && t.db.invoices == s.db.invoices && t.dropped == s.dropped
    requires forall o :: o in s.db.orders ==> o in t.db.orders && t.db.orders[o] == s.db.orders[o]
    ensures Agreed(t)
  {
    forall i | i in t.db.invoices ensures t.db.invoices[i].order in t.db.orders && Fits(t, i) { assert Fits(s, i); }
  }

  lemma CreatedFits(s: Sys, t: Sys, n: NewInvoice)
    requires InvoicesFine(s) && Agreed(s) && Whereabouts(s) && n.id !in s.db.invoices
    requires t == s.(db := t.db) && Created(s.db, t.db, n)
    ensures Agreed(t)
  {
    forall i | i in t.db.invoices && t.db.invoices[i].order in t.db.orders ensures Fits(t, i) {
      if i != n.id {
        assert Fits(s, i) && Placed(s, i);
      }
    }
  }

  lemma SettledFits(s: Sys, t: Sys, i: InvoiceId, how: Outcome)
    requires InvoicesFine(s) && Agreed(s) && Settled(s.db, t.db, i, how) && t == s.(db := t.db)
    ensures Agreed(t)
  {
    forall j | j in t.db.invoices && t.db.invoices[j].order in t.db.orders ensures Fits(t, j) {
      assert Fits(s, j);
    }
  }

  lemma ExpiredFits(s: Sys, o: OrderId)
    requires InvoicesFine(s) && Agreed(s) && Whereabouts(s)
    ensures Agreed(ExpireRead(s, o))
  {
    var t := ExpireRead(s, o);
    forall j | j in t.db.invoices && t.db.invoices[j].order in t.db.orders ensures Fits(t, j) {
      assert Fits(s, j) && Placed(s, j);
    }
  }

  /** What the current invoice of an order looks like. */
  lemma CurrentFits(s: Sys, o: OrderId, i: InvoiceId)
    requires InvoicesFine(s) && Agreed(s) && o in s.db.orders && s.db.orders[o].current == Some(i)
    ensures i in s.db.invoices && s.db.invoices[i].order == o && AttemptFits(s.db.orders[o].state, s.db.invoices[i])
  {
    assert Fits(s, i);
  }

  /** One order moved on, and with it the attempt of its current invoice, if it has one; nothing else. */
  ghost predicate Moved(db: Db, d: Db, o: OrderId, state: OrderState, attempt: AttemptState)
    requires o in db.orders
  {
    var x := db.orders[o];
    && (x.current.Some? ==> x.current.value in db.invoices)
    && d == db.(orders := db.orders[o := x.(state := state)],
                invoices := if x.current.None? then db.invoices
                            else db.invoices[x.current.value := db.invoices[x.current.value].(attempt := attempt)])
  }

  /** The money of an order's current payment is there. */
  predicate PaidFor(db: Db, o: OrderId)
    requires o in db.orders
  {
    db.orders[o].current.Some? && db.orders[o].current.value in db.invoices && db.invoices[db.orders[o].current.value].state == Paid
  }

  predicate NetworkFrozen(db: Db, o: OrderId)
    requires o in db.orders
  {
    db.orders[o].current.Some? && db.orders[o].current.value in db.invoices && db.invoices[db.orders[o].current.value].chain in db.frozen
  }

  ghost predicate Unmoved(s: Sys, e: Event) { Step(s, e) == s }

  lemma ConfirmMoves(s: Sys, o: OrderId)
    requires InvoicesFine(s) && Agreed(s) && o in s.db.orders
    ensures var x, t := s.db.orders[o], Step(s, Confirm(o));
            if x.state == Pending && (x.current.None? || PaidFor(s.db, o)) && !NetworkFrozen(s.db, o)
            then t == s.(db := t.db) && Moved(s.db, t.db, o, Provisioning, AttemptPaid) else Unmoved(s, Confirm(o))
  {
    if s.db.orders[o].current.Some? { CurrentFits(s, o, s.db.orders[o].current.value); }
  }

  lemma FulfilMoves(s: Sys, o: OrderId)
    requires InvoicesFine(s) && Agreed(s) && o in s.db.orders
    ensures var x, t := s.db.orders[o], Step(s, Fulfil(o));
            if x.state == Provisioning && !NetworkFrozen(s.db, o)
            then t == s.(db := t.db) && Moved(s.db, t.db, o, Completed, AttemptCompleted) else Unmoved(s, Fulfil(o))
  {
    if s.db.orders[o].current.Some? { CurrentFits(s, o, s.db.orders[o].current.value); }
  }

  lemma FailMoves(s: Sys, o: OrderId)
    requires InvoicesFine(s) && Agreed(s) && o in s.db.orders
    ensures var x, t := s.db.orders[o], Step(s, Fail(o));
            if x.state == Provisioning
            then t == s.(db := t.db) && Moved(s.db, t.db, o, Failed, RefundRequired) else Unmoved(s, Fail(o))
  {
    if s.db.orders[o].current.Some? { CurrentFits(s, o, s.db.orders[o].current.value); }
  }

  lemma CancelMoves(s: Sys, o: OrderId)
    requires InvoicesFine(s) && Agreed(s) && o in s.db.orders
    ensures var x, t := s.db.orders[o], Step(s, Cancel(o));
            if x.state == Pending || x.state == Provisioning
            then t == s.(db := t.db) && Moved(s.db, t.db, o, Cancelled, if PaidFor(s.db, o) then RefundRequired else AttemptCancelled)
            else Unmoved(s, Cancel(o))
  {
    if s.db.orders[o].current.Some? { CurrentFits(s, o, s.db.orders[o].current.value); }
  }

  lemma RefundMoves(s: Sys, o: OrderId)
    requires InvoicesFine(s) && Agreed(s) && o in s.db.orders
    ensures var x, t := s.db.orders[o], Step(s, Refund(o));
            if x.state == Pending && PaidFor(s.db, o)
            then t == s.(db := t.db) && Moved(s.db, t.db, o, Failed, RefundRequired) else Unmoved(s, Refund(o))
  {
    if s.db.orders[o].current.Some? { CurrentFits(s, o, s.db.orders[o].current.value); }
  }

  lemma MovedFits(s: Sys, t: Sys, o: OrderId, state: OrderState, attempt: AttemptState)
    requires InvoicesFine(s) && Agreed(s) && o in s.db.orders && t == s.(db := t.db) && Moved(s.db, t.db, o, state, attempt)
    requires s.db.orders[o].current.Some? ==> AttemptFits(state, s.db.invoices[s.db.orders[o].current.value].(attempt := attempt))
    ensures Agreed(t)
  {
    forall j | j in t.db.invoices && t.db.invoices[j].order in t.db.orders ensures Fits(t, j) {
      assert Fits(s, j);
    }
  }

  lemma ActionFits(s: Sys, e: Event)
    requires InvoicesFine(s) && Agreed(s) && (e.Confirm? || e.Fulfil? || e.Fail? || e.Cancel? || e.Refund?)
    ensures Agreed(Step(s, e))
  {
    var o, t := e.order, Step(s, e);
    if o in s.db.orders && t != s {
      if s.db.orders[o].current.Some? { CurrentFits(s, o, s.db.orders[o].current.value); }
      match e
      case Confirm(_) =>
        ConfirmMoves(s, o);
        MovedFits(s, t, o, Provisioning, AttemptPaid);
      case Fulfil(_) =>
        FulfilMoves(s, o);
        MovedFits(s, t, o, Completed, AttemptCompleted);
      case Fail(_) =>
        FailMoves(s, o);
        MovedFits(s, t, o, Failed, RefundRequired);
      case Cancel(_) =>
        CancelMoves(s, o);
        MovedFits(s, t, o, Cancelled, if PaidFor(s.db, o) then RefundRequired else AttemptCancelled);
      case Refund(_) =>
        RefundMoves(s, o);
        MovedFits(s, t, o, Failed, RefundRequired);
    }
  }

  lemma CommittedFits(s: Sys, t: Sys, w: Scan)
    requires InvoicesFine(s) && Agreed(s) && w.invoice in s.db.invoices && Scanned(s, t, w) && ApplyScan(s.db, w).Ok?
    requires ApplyScan(s.db, w) == Settle(t.db, w.invoice, DeadlineFinal(s.db.invoices[w.invoice], w))
    ensures Agreed(Step(s, Apply(w)))
  {
    var how := ScanStepDoes(s, t, w);
    SameFits(s, t);
    SettledFits(t, Step(s, Apply(w)), w.invoice, how);
  }

  lemma IdleScanFits(s: Sys, w: Scan)
    requires InvoicesFine(s) && Agreed(s)
    requires w.chain in s.db.frozen || CursorKey(w.invoice, w.chain) !in s.db.cursors || s.db.cursors[CursorKey(w.invoice, w.chain)].next != w.from
    ensures Agreed(Step(s, Apply(w)))
  {
    SameFits(s, Step(s, Apply(w)));
  }

  lemma ScanFits(s: Sys, w: Scan)
    requires Inv(s) && Agreed(s) && Honest(s, w)
    ensures Agreed(Step(s, Apply(w)))
  {
    if w.chain in s.db.frozen || CursorKey(w.invoice, w.chain) !in s.db.cursors || s.db.cursors[CursorKey(w.invoice, w.chain)].next != w.from {
      IdleScanFits(s, w);
    } else {
      var t := HonestScanCommits(s, w);
      CommittedFits(s, t, w);
    }
  }

  lemma QuietFits(s: Sys, e: Event)
    requires InvoicesFine(s) && Agreed(s) && (e.Finalize? || e.FirstScan? || e.PlaceOrder? || e.Halt? || e.Read?)
    ensures Agreed(Step(s, e))
  {
    SameFits(s, Step(s, e));
  }

  lemma StepFits(s: Sys, e: Event)
    requires Inv(s) && Agreed(s) && Allowed(s, e)
    ensures Agreed(Step(s, e))
  {
    match e
    case Create(n) =>
      CreateDoes(s.db, n);
      if CreateInvoice(s.db, n).Ok? {
        CreatedFits(s, Step(s, e), n);
      }
    case Apply(w) => ScanFits(s, w);
    case Expire(o) => if o in s.read { ExpiredFits(s, o); }
    case _ =>
      if e.Confirm? || e.Fulfil? || e.Fail? || e.Cancel? || e.Refund? {
        ActionFits(s, e);
      } else {
        QuietFits(s, e);
      }
  }

  lemma {:induction false} RunFits(s: Sys, es: seq<Event>, t: Sys)
    requires Inv(s) && Agreed(s) && Reaches(s, es, t)
    ensures Inv(t) && Agreed(t)
    decreases |es|
  {
    if es != [] {
      StepKeepsInv(s, es[0]);
      StepFits(s, es[0]);
      RunFits(Step(s, es[0]), es[1..], t);
    }
  }

  lemma ReachableFits(s: Sys, es: seq<Event>, t: Sys)
    requires Init(s) && Reaches(s, es, t)
    ensures Inv(t) && Agreed(t)
  {
    InitIsInv(s);
    RunFits(s, es, t);
  }

  // ------------------------------------------------------------------ theorems

  /** The order's current payment has its receipt. */
  predicate HasReceipt(db: Db, o: OrderId)
    requires o in db.orders
  {
    db.orders[o].current.Some? && Receipt(db.orders[o].current.value, o) in db.receipts
  }

  lemma ReceiptsArePaid(s: Sys, o: OrderId)
    requires InvoicesFine(s) && ReceiptsFine(s) && o in s.db.orders
    ensures PaidFor(s.db, o) <==> HasReceipt(s.db, o)
  {
    if HasReceipt(s.db, o) {
      assert ReceiptFine(s, Receipt(s.db.orders[o].current.value, o));
    }
  }

  /** In every run the state of an order fixes that of its payment: an attempt waits while its order is
      pending and unpaid, and money that was received is used, or is to be refunded. */
  lemma PaymentFollowsOrder(s: Sys, es: seq<Event>, t: Sys, i: InvoiceId)
    requires Init(s) && Reaches(s, es, t) && i in t.db.invoices
    ensures t.db.invoices[i].order in t.db.orders && Fits(t, i)
    ensures t.db.invoices[i].state == Paid <==> Receipt(i, t.db.invoices[i].order) in t.db.receipts
  {
    ReachableFits(s, es, t);
    if Receipt(i, t.db.invoices[i].order) in t.db.receipts {
      assert ReceiptFine(t, Receipt(i, t.db.invoices[i].order));
    }
  }

  /** Nothing is delivered unpaid: a token order that is being provisioned or is completed has a receipt,
      and the final chain paid its price in time. */
  lemma DeliveredWasPaid(s: Sys, es: seq<Event>, t: Sys, o: OrderId)
    requires Init(s) && Reaches(s, es, t)
    requires o in t.db.orders && t.db.orders[o].current.Some?
    requires t.db.orders[o].state == Provisioning || t.db.orders[o].state == Completed
    ensures var i := t.db.orders[o].current.value;
            && i in t.db.invoices && t.db.invoices[i].chain in t.chains
            && t.db.invoices[i].state == Paid && Receipt(i, o) in t.db.receipts
            && InTimeAtoms(t, i) >= t.db.invoices[i].expected
  {
    ReachableFits(s, es, t);
    var i := t.db.orders[o].current.value;
    CurrentFits(t, o, i);
    ReceiptWasCovered(s, es, t, Receipt(i, o));
  }

  lemma ConfirmKeepsAttempt(s: Sys, t: Sys, o: OrderId)
    requires InvoicesFine(s) && Agreed(s) && o in s.db.orders && s.db.orders[o].state == Pending
    requires s.db.orders[o].current.None? || PaidFor(s.db, o)
    requires t == s.(db := t.db) && Moved(s.db, t.db, o, Provisioning, AttemptPaid)
    ensures t == s.(db := s.db.(orders := s.db.orders[o := s.db.orders[o].(state := Provisioning)]))
  {
    if s.db.orders[o].current.Some? {
      var i := s.db.orders[o].current.value;
      CurrentFits(s, o, i);
      assert s.db.invoices[i := s.db.invoices[i]] == s.db.invoices;
    }
  }

  /** A pending order is activated if and only if it needs no payment, or its invoice has a receipt and its
      network is not frozen; nothing but the order's state changes. */
  lemma ConfirmsExactlyWhen(s: Sys, es: seq<Event>, t: Sys, o: OrderId)
    requires Init(s) && Reaches(s, es, t) && o in t.db.orders && t.db.orders[o].state == Pending
    ensures var x, u := t.db.orders[o], Step(t, Confirm(o));
            if (x.current.None? || HasReceipt(t.db, o)) && !NetworkFrozen(t.db, o)
            then u == t.(db := t.db.(orders := t.db.orders[o := x.(state := Provisioning)])) else u == t
  {
    ReachableFits(s, es, t);
    ReceiptsArePaid(t, o);
    ConfirmMoves(t, o);
    if Step(t, Confirm(o)) != t {
      ConfirmKeepsAttempt(t, Step(t, Confirm(o)), o);
    }
  }

  /** What every other order action does in a reachable state, and to the payment: a paid attempt is
      completed with its order, and is to be refunded when the order ends otherwise. */
  lemma ActionsMoveExactly(s: Sys, es: seq<Event>, t: Sys, o: OrderId)
    requires Init(s) && Reaches(s, es, t) && o in t.db.orders
    ensures var x, u := t.db.orders[o], Step(t, Fulfil(o));
            if x.state == Provisioning && !NetworkFrozen(t.db, o)
            then Moved(t.db, u.db, o, Completed, AttemptCompleted) else u == t
    ensures var x, u := t.db.orders[o], Step(t, Fail(o));
            if x.state == Provisioning then Moved(t.db, u.db, o, Failed, RefundRequired) else u == t
    ensures var x, u := t.db.orders[o], Step(t, Cancel(o));
            if x.state == Pending || x.state == Provisioning
            then Moved(t.db, u.db, o, Cancelled, if HasReceipt(t.db, o) then RefundRequired else AttemptCancelled) else u == t
    ensures var x, u := t.db.orders[o], Step(t, Refund(o));
            if x.state == Pending && HasReceipt(t.db, o) then Moved(t.db, u.db, o, Failed, RefundRequired) else u == t
  {
    ReachableFits(s, es, t);
    ReceiptsArePaid(t, o);
    FulfilMoves(t, o);
    FailMoves(t, o);
    CancelMoves(t, o);
    RefundMoves(t, o);
  }

  // ------------------------------------------------------------------ choosing a payment

  /** A transfer to one of the order's addresses is stored or sighted. */
  ghost predicate MoneySeen(db: Db, o: OrderId)
  {
    || (exists k :: k in db.transfers && Concerns(db, db.transfers[k].invoice, o))
    || (exists k :: k in db.observations && Concerns(db, db.observations[k].invoice, o))
  }

  predicate Concerns(db: Db, i: InvoiceId, o: OrderId) { i in db.invoices && db.invoices[i].order == o }

  /** The order may still choose this asset: it has no payment yet, or an unpaid one in another asset to
      which nothing was sent. */
  ghost predicate MayChoose(db: Db, n: NewInvoice)
    requires n.order in db.orders && (db.orders[n.order].current.Some? ==> db.orders[n.order].current.value in db.invoices)
  {
    match db.orders[n.order].current
    case None => true
    case Some(j) =>
      !(db.invoices[j].chain == n.chain && db.invoices[j].contract == n.contract) && !MoneySeen(db, n.order) && !PaidFor(db, n.order)
  }

  ghost predicate Chosen(db: Db, d: Db, n: NewInvoice)
    requires n.order in db.orders && (db.orders[n.order].current.Some? ==> db.orders[n.order].current.value in db.invoices)
  {
    var added := Invoice(n.order, n.chain, n.contract, n.address, n.expected, n.created, n.expires, n.startBlock, Waiting, Awaiting);
    d == db.(orders := db.orders[n.order := Order(Pending, Some(n.id))],
             invoices := match db.orders[n.order].current
                         case None => db.invoices[n.id := added]
                         case Some(j) =>
                           var v := db.invoices[j];
                           db.invoices[j := v.(state := if v.state == Waiting then Superseded else v.state, attempt := AttemptCancelled)]
                                      [n.id := added])
  }

  /** An invoice is created, or the order switched to it, if and only if the network is not frozen, the order
      is pending with fewer than twelve invoices, and it may choose; then exactly the new invoice is waited
      for, and the one before is closed. */
  lemma ChoosesExactlyWhen(s: Sys, es: seq<Event>, t: Sys, n: NewInvoice)
    requires Init(s) && Reaches(s, es, t) && Allowed(t, Create(n)) && n.order in t.db.orders
    ensures t.db.orders[n.order].current.Some? ==> t.db.orders[n.order].current.value in t.db.invoices
    ensures var u := Step(t, Create(n));
            if n.chain !in t.db.frozen && t.db.orders[n.order].state == Pending
               && |set i | i in t.db.invoices && t.db.invoices[i].order == n.order| < 12 && MayChoose(t.db, n)
            then u == t.(db := u.db) && Chosen(t.db, u.db, n) else u == t
  {
    ReachableFits(s, es, t);
    assert OrderInvoices(t.db, n.order) == set i | i in t.db.invoices && t.db.invoices[i].order == n.order;
    SeenIsAny(t.db, n.order);
    if t.db.orders[n.order].current.Some? {
      CurrentFits(t, n.order, t.db.orders[n.order].current.value);
    }
  }

  lemma SeenIsAny(db: Db, o: OrderId)
    ensures MoneySeen(db, o) <==> AnyTransfer(db, o)
  {
    if k :| k in db.transfers && Concerns(db, db.transfers[k].invoice, o) {
      assert db.transfers[k].invoice in OrderInvoices(db, o);
    }
    if k :| k in db.observations && Concerns(db, db.observations[k].invoice, o) {
      assert db.observations[k].invoice in OrderInvoices(db, o);
    }
  }
}
