/** Every run of scans, invoice switches and order actions keeps the books exact:
    invariants, their preservation, and what they mean for a payer. */
module CryptoSafety {
  import opened Common
  import opened Sums
  import opened CryptoModel

  // ---------------------------------------------------------------- invariants

  ghost predicate SameTerms(v: Invoice, u: Invoice)
  {
    u == v.(state := u.state, attempt := u.attempt)
  }

  ghost predicate ChainsFine(s: Sys)
  {
    forall c :: c in s.chains ==> WellFormed(s.chains[c])
  }

  ghost predicate InvoicesFine(s: Sys)
  {
    && (forall i :: i in s.db.invoices ==>
          && s.db.invoices[i].order in s.db.orders
          && s.db.invoices[i].expected > 0
          && Asset(s.db.invoices[i].chain, s.db.invoices[i].contract) in s.catalog)
    && (forall i, j :: i in s.db.invoices && j in s.db.invoices && i != j ==> s.db.invoices[i].address != s.db.invoices[j].address)
    && (forall o :: o in s.db.orders && s.db.orders[o].current.Some? ==>
          && s.db.orders[o].current.value in s.db.invoices
          && s.db.invoices[s.db.orders[o].current.value].order == o)
  }

  ghost predicate CursorFine(s: Sys, ck: CursorKey)
    requires ck in s.db.cursors
  {
    && ck.invoice in s.db.invoices
    && ck.chain in s.chains
    && s.db.cursors[ck].start <= s.db.cursors[ck].next <= |s.chains[ck.chain].heads|
    && (ck.chain == s.db.invoices[ck.invoice].chain ==> s.db.cursors[ck].start == s.db.invoices[ck.invoice].startBlock)
  }

  ghost predicate CursorsFine(s: Sys)
  {
    forall ck :: ck in s.db.cursors ==> CursorFine(s, ck)
  }

  /** The cursor of `ck` has passed log `a` of its chain, and the log counts for its invoice. */
  ghost predicate Passed(s: Sys, ck: CursorKey, a: nat)
  {
    && ck in s.db.cursors && ck.invoice in s.db.invoices && ck.chain in s.chains
    && a < |s.chains[ck.chain].logs|
    && (var l := s.chains[ck.chain].logs[a];
        && l.block < |s.chains[ck.chain].heads|
        && l.atoms > 0
        && Asked(s.catalog, ck.chain, s.db.invoices[ck.invoice].address, l)
        && s.db.cursors[ck].start <= l.block < s.db.cursors[ck].next)
  }

  ghost function PassedKey(s: Sys, ck: CursorKey, a: nat): TransferKey
    requires Passed(s, ck, a)
  {
    KeyOf(ck.chain, s.chains[ck.chain].logs[a])
  }

  ghost function PassedRow(s: Sys, ck: CursorKey, a: nat): Transfer
    requires Passed(s, ck, a)
  {
    RowOf(ck.invoice, s.db.invoices[ck.invoice], ck.chain, ItemAt(s.chains[ck.chain], s.chains[ck.chain].logs[a]))
  }

  /** Log `a` of its chain is the one that row `k` was stored from. */
  ghost predicate Backs(s: Sys, k: TransferKey, a: nat)
    requires k in s.db.transfers
  {
    var ck := CursorKey(s.db.transfers[k].invoice, k.chain);
    Passed(s, ck, a) && PassedKey(s, ck, a) == k && PassedRow(s, ck, a) == s.db.transfers[k]
  }

  /** Every stored transfer is a final, matching, non-zero log below its cursor ... */
  ghost predicate RowsSound(s: Sys)
  {
    forall k :: k in s.db.transfers ==> exists a :: Backs(s, k, a)
  }

  /** ... and every such log is stored. */
  ghost predicate RowsComplete(s: Sys)
  {
    forall ck, a :: Passed(s, ck, a) ==>
      PassedKey(s, ck, a) in s.db.transfers && s.db.transfers[PassedKey(s, ck, a)] == PassedRow(s, ck, a)
  }

  ghost predicate ObservationsAhead(s: Sys)
  {
    forall o :: o in s.db.observations ==>
      && CursorKey(s.db.observations[o].invoice, o.chain) in s.db.cursors
      && s.db.cursors[CursorKey(s.db.observations[o].invoice, o.chain)].next <= s.db.observations[o].block
  }

  ghost predicate Books(s: Sys)
  {
    ChainsFine(s) && InvoicesFine(s) && CursorsFine(s) && RowsSound(s) && RowsComplete(s) && ObservationsAhead(s)
  }

  /** A final block later than the deadline lies below the invoice's own cursor. */
  ghost predicate PastDeadline(s: Sys, i: InvoiceId)
  {
    && i in s.db.invoices
    && (var v := s.db.invoices[i];
        var ck := CursorKey(i, v.chain);
        && ck in s.db.cursors && v.chain in s.chains
        && exists h :: 0 <= h < s.db.cursors[ck].next && h < |s.chains[v.chain].heads| && s.chains[v.chain].heads[h].time > v.expires)
  }

  /** An invoice its order still waits for is live and not covered yet. */
  ghost predicate OpenUncovered(s: Sys)
  {
    forall i :: Open(s.db, i) ==>
      && (s.db.invoices[i].state == Waiting || s.db.invoices[i].state == ReviewRequired)
      && ConfirmedAtoms(s.db, i) < s.db.invoices[i].expected
  }

  ghost predicate ReceiptFine(s: Sys, r: Receipt)
  {
    && r.invoice in s.db.invoices
    && s.db.invoices[r.invoice].order == r.order
    && s.db.invoices[r.invoice].state == Paid
    && s.db.invoices[r.invoice].attempt != Awaiting
    && r.order in s.db.orders
    && (s.db.orders[r.order].current == Some(r.invoice) || s.db.orders[r.order] == Order(OrderExpired, None))
    && ConfirmedAtoms(s.db, r.invoice) >= s.db.invoices[r.invoice].expected
  }

  ghost predicate ReceiptsFine(s: Sys)
  {
    && (forall r :: r in s.db.receipts ==> ReceiptFine(s, r))
    && (forall a, b :: 0 <= a < b < |s.db.receipts| ==> s.db.receipts[a].order != s.db.receipts[b].order)
    && (forall i :: i in s.db.invoices && s.db.invoices[i].state == Paid ==> Receipt(i, s.db.invoices[i].order) in s.db.receipts)
  }

  /** A crypto order that expired did so past its deadline and short of the price. */
  ghost predicate ExpiriesFine(s: Sys)
  {
    forall o :: o in s.db.orders && s.db.orders[o].state == OrderExpired && s.db.orders[o].current.Some? ==>
      && PastDeadline(s, s.db.orders[o].current.value)
      && ConfirmedAtoms(s.db, s.db.orders[o].current.value) < s.db.invoices[s.db.orders[o].current.value].expected
  }

  /** Where every invoice is: its order's current one, dropped by the clock, or switched away. */
  ghost predicate Whereabouts(s: Sys)
  {
    && (forall i :: i in s.dropped ==> i in s.db.invoices)
    && (forall i :: i in s.db.invoices ==> Placed(s, i))
  }

  ghost predicate Placed(s: Sys, i: InvoiceId)
    requires i in s.db.invoices
  {
    var v := s.db.invoices[i];
    && v.order in s.db.orders
    && (i in s.dropped ==> s.db.orders[v.order] == Order(OrderExpired, None))
    && (i in s.dropped || s.db.orders[v.order].current == Some(i) || v.attempt == AttemptCancelled)
  }

  ghost predicate Inv(s: Sys)
  {
    Books(s) && OpenUncovered(s) && ReceiptsFine(s) && ExpiriesFine(s) && Whereabouts(s)
  }

  // --------------------------------------------------------------- frame lemmas

  lemma ConfirmedFrame(db: Db, eb: Db, i: InvoiceId)
    requires i in db.invoices && i in eb.invoices && SameTerms(db.invoices[i], eb.invoices[i])
    requires db.transfers == eb.transfers
    ensures ConfirmedAtoms(db, i) == ConfirmedAtoms(eb, i)
  {
    assert ConfirmedKeys(db, i) == ConfirmedKeys(eb, i);
    SumCongruence(ConfirmedKeys(db, i), k => if k in db.transfers then db.transfers[k].atoms else 0,
                  k => if k in eb.transfers then eb.transfers[k].atoms else 0);
  }

  /** Transactions that touch no chain rows: states may change and invoices may be added. */
  ghost predicate SameRows(s: Sys, t: Sys)
  {
    && t.chains == s.chains && t.catalog == s.catalog
    && t.db.transfers == s.db.transfers && t.db.observations == s.db.observations && t.db.cursors == s.db.cursors
    && (forall i :: i in s.db.invoices ==> i in t.db.invoices && SameTerms(s.db.invoices[i], t.db.invoices[i]))
  }

  /** Stored rows follow the logs that the cursors have passed, and nothing else. */
  lemma RowsFollow(s: Sys, t: Sys)
    requires RowsSound(s) && RowsComplete(s)
    requires t.db.transfers == s.db.transfers
    requires forall ck, a :: Passed(t, ck, a) <==> Passed(s, ck, a)
    requires forall ck, a :: Passed(s, ck, a) ==> PassedKey(t, ck, a) == PassedKey(s, ck, a) && PassedRow(t, ck, a) == PassedRow(s, ck, a)
    ensures RowsSound(t) && RowsComplete(t)
  {
    forall k | k in t.db.transfers ensures exists a :: Backs(t, k, a)
    {
      var a :| Backs(s, k, a);
      assert Backs(t, k, a);
    }
  }

  lemma RowsFrame(s: Sys, t: Sys)
    requires Books(s) && SameRows(s, t)
    ensures CursorsFine(t) && RowsSound(t) && RowsComplete(t) && ObservationsAhead(t)
  {
    forall ck | ck in t.db.cursors ensures CursorFine(t, ck) { assert CursorFine(s, ck); }
    forall ck, a | Passed(t, ck, a) || Passed(s, ck, a)
      ensures Passed(s, ck, a) && Passed(t, ck, a) && PassedKey(t, ck, a) == PassedKey(s, ck, a) && PassedRow(t, ck, a) == PassedRow(s, ck, a)
    {
      assert CursorFine(s, ck);
    }
    RowsFollow(s, t);
  }

  // ------------------------------------------------- steps other than a scan

  /** Order actions never add money state: they only leave `Pending` and `Awaiting`. */
  ghost predicate OrderAction(s: Sys, t: Sys)
  {
    && SameRows(s, t)
    && t.db.receipts == s.db.receipts
    && t.db.invoices.Keys == s.db.invoices.Keys
    && (forall i :: i in s.db.invoices ==>
          && t.db.invoices[i].state == s.db.invoices[i].state
          && (t.db.invoices[i].attempt == Awaiting ==> s.db.invoices[i].attempt == Awaiting)
          && (s.db.invoices[i].attempt == AttemptCancelled ==> t.db.invoices[i].attempt == AttemptCancelled))
    && t.dropped == s.dropped
    && (forall o :: o in s.db.orders ==>
          && o in t.db.orders
          && t.db.orders[o].current == s.db.orders[o].current
          && (t.db.orders[o].state == Pending ==> s.db.orders[o].state == Pending)
          && (t.db.orders[o].state == OrderExpired ==> s.db.orders[o].state == OrderExpired)
          && (s.db.orders[o].state == OrderExpired ==> t.db.orders[o] == s.db.orders[o]))
    && (forall o :: o in t.db.orders && o !in s.db.orders ==> t.db.orders[o] == Order(Pending, None))
  }

  lemma OrderActionKeepsInv(s: Sys, t: Sys)
    requires Inv(s) && OrderAction(s, t)
    ensures Inv(t)
  {
    RowsFrame(s, t);
    forall i | i in s.db.invoices ensures ConfirmedAtoms(t.db, i) == ConfirmedAtoms(s.db, i) { ConfirmedFrame(s.db, t.db, i); }
    forall r | r in t.db.receipts ensures ReceiptFine(t, r) { assert ReceiptFine(s, r); }
    forall i | Open(t.db, i) ensures Open(s.db, i) {}
    forall o | o in t.db.orders && t.db.orders[o].state == OrderExpired && t.db.orders[o].current.Some?
      ensures o in s.db.orders && s.db.orders[o].state == OrderExpired && PastDeadline(t, t.db.orders[o].current.value)
    {
      assert PastDeadline(s, t.db.orders[o].current.value);
    }
    forall i | i in t.db.invoices ensures Placed(t, i) { assert Placed(s, i); }
  }

  /** An attempt changed at most, and never back to waiting. */
  ghost predicate Mild(invoices: map<InvoiceId, Invoice>, next: map<InvoiceId, Invoice>)
  {
    && next.Keys == invoices.Keys
    && forall i :: i in invoices ==>
         && next[i] == invoices[i].(attempt := next[i].attempt)
         && (next[i].attempt == Awaiting ==> invoices[i].attempt == Awaiting)
         && (invoices[i].attempt == AttemptCancelled ==> next[i].attempt == AttemptCancelled)
  }

  lemma SetAttemptIsMild(db: Db, o: OrderId, from: set<AttemptState>, to: AttemptState)
    requires o in db.orders && to != Awaiting && AttemptCancelled !in from
    ensures Mild(db.invoices, SetAttempt(db, o, from, to))
  {
  }

  /** A committed order action: one order leaves a state it can leave, activation needs a usable payment. */
  ghost predicate Acted(db: Db, d: Db, o: OrderId)
  {
    && o in db.orders && o in d.orders
    && d == db.(orders := db.orders[o := db.orders[o].(state := d.orders[o].state)], invoices := d.invoices)
    && Mild(db.invoices, d.invoices)
    && (db.orders[o].state == Pending || db.orders[o].state == Provisioning)
    && d.orders[o].state != Pending
    && d.orders[o].state != OrderExpired
    && (d.orders[o].state == Provisioning || d.orders[o].state == Completed ==> PaymentUsable(db, o))
  }

  lemma ConfirmActs(db: Db, o: OrderId)
    ensures ConfirmOrder(db, o).Ok? ==> Acted(db, ConfirmOrder(db, o).value, o)
  {
  }

  lemma FulfilActs(db: Db, o: OrderId)
    ensures FulfilOrder(db, o).Ok? ==> Acted(db, FulfilOrder(db, o).value, o)
  {
    if FulfilOrder(db, o).Ok? { SetAttemptIsMild(db, o, {AttemptPaid}, AttemptCompleted); }
  }

  lemma FailActs(db: Db, o: OrderId)
    ensures FailOrder(db, o).Ok? ==> Acted(db, FailOrder(db, o).value, o)
  {
    if FailOrder(db, o).Ok? { SetAttemptIsMild(db, o, {AttemptPaid, AttemptCompleted}, RefundRequired); }
  }

  lemma CancelActs(db: Db, o: OrderId)
    ensures CancelOrder(db, o).Ok? ==> Acted(db, CancelOrder(db, o).value, o)
  {
    if CancelOrder(db, o).Ok? {
      SetAttemptIsMild(db, o, {Awaiting, AttemptPaid}, RefundRequired);
      SetAttemptIsMild(db, o, {Awaiting, AttemptPaid}, AttemptCancelled);
    }
  }

  lemma RefundActs(db: Db, o: OrderId)
    ensures RefundPending(db, o).Ok? ==> Acted(db, RefundPending(db, o).value, o)
  {
    if RefundPending(db, o).Ok? { SetAttemptIsMild(db, o, {AttemptPaid}, RefundRequired); }
  }

  lemma StepActs(s: Sys, e: Event)
    requires e.Confirm? || e.Fulfil? || e.Fail? || e.Cancel? || e.Refund?
    ensures var t := Step(s, e); t == s || (t == s.(db := t.db) && Acted(s.db, t.db, e.order))
  {
    match e
    case Confirm(o) => ConfirmActs(s.db, o);
    case Fulfil(o) => FulfilActs(s.db, o);
    case Fail(o) => FailActs(s.db, o);
    case Cancel(o) => CancelActs(s.db, o);
    case Refund(o) => RefundActs(s.db, o);
  }

  lemma ActedIsOrderAction(s: Sys, t: Sys, o: OrderId)
    requires t == s.(db := t.db) && Acted(s.db, t.db, o)
    ensures OrderAction(s, t)
  {
  }

  lemma ActionsAreOrderActions(s: Sys, e: Event)
    requires e.PlaceOrder? || e.Halt? || e.Confirm? || e.Fulfil? || e.Fail? || e.Cancel? || e.Refund? || e.Read?
    ensures OrderAction(s, Step(s, e))
  {
    if !e.PlaceOrder? && !e.Halt? && !e.Read? {
      StepActs(s, e);
      if Step(s, e) != s {
        ActedIsOrderAction(s, Step(s, e), e.order);
      }
    }
  }

  lemma WrittenPlaced(s: Sys, o: OrderId, i: InvoiceId)
    requires InvoicesFine(s) && i in s.db.invoices && Placed(s, i)
    ensures Placed(ExpireRead(s, o), i)
  {
  }

  lemma WrittenReceipts(s: Sys, o: OrderId)
    requires ReceiptsFine(s)
    requires forall i :: i in s.db.invoices ==> ConfirmedAtoms(ExpireRead(s, o).db, i) == ConfirmedAtoms(s.db, i)
    ensures ReceiptsFine(ExpireRead(s, o))
  {
    var t := ExpireRead(s, o);
    forall r | r in t.db.receipts ensures ReceiptFine(t, r) { assert ReceiptFine(s, r); }
  }

  lemma WrittenExpiries(s: Sys, o: OrderId)
    requires ExpiriesFine(s)
    requires forall i :: i in s.db.invoices ==> ConfirmedAtoms(ExpireRead(s, o).db, i) == ConfirmedAtoms(s.db, i)
    ensures ExpiriesFine(ExpireRead(s, o))
  {
    var t := ExpireRead(s, o);
    forall p | p in t.db.orders && t.db.orders[p].state == OrderExpired && t.db.orders[p].current.Some?
      ensures p in s.db.orders && t.db.orders[p] == s.db.orders[p] && PastDeadline(t, t.db.orders[p].current.value)
    {
      assert PastDeadline(s, t.db.orders[p].current.value);
    }
  }

  lemma WrittenOpen(s: Sys, o: OrderId)
    requires OpenUncovered(s)
    requires forall i :: i in s.db.invoices ==> ConfirmedAtoms(ExpireRead(s, o).db, i) == ConfirmedAtoms(s.db, i)
    ensures OpenUncovered(ExpireRead(s, o))
  {
    forall i | Open(ExpireRead(s, o).db, i) ensures Open(s.db, i) {}
  }

  lemma WrittenRows(s: Sys, o: OrderId)
    requires InvoicesFine(s)
    ensures SameRows(s, ExpireRead(s, o)) && InvoicesFine(ExpireRead(s, o))
  {
  }

  lemma WrittenBooks(s: Sys, o: OrderId)
    requires Books(s)
    ensures Books(ExpireRead(s, o))
    ensures forall i :: i in s.db.invoices ==> ConfirmedAtoms(ExpireRead(s, o).db, i) == ConfirmedAtoms(s.db, i)
  {
    WrittenRows(s, o);
    RowsFrame(s, ExpireRead(s, o));
    forall i | i in s.db.invoices ensures ConfirmedAtoms(ExpireRead(s, o).db, i) == ConfirmedAtoms(s.db, i) {
      ConfirmedFrame(s.db, ExpireRead(s, o).db, i);
    }
  }

  lemma WrittenWhereabouts(s: Sys, o: OrderId)
    requires InvoicesFine(s) && Whereabouts(s)
    ensures Whereabouts(ExpireRead(s, o))
  {
    forall i | i in s.db.invoices ensures Placed(ExpireRead(s, o), i) { WrittenPlaced(s, o, i); }
  }

  /** The stale write takes an invoice from its order, and nothing else from the books. */
  lemma ExpireReadKeepsInv(s: Sys, o: OrderId)
    requires Inv(s)
    ensures Inv(ExpireRead(s, o))
  {
    WrittenBooks(s, o);
    WrittenReceipts(s, o);
    WrittenExpiries(s, o);
    WrittenOpen(s, o);
    WrittenWhereabouts(s, o);
  }

  /** What a successful createCryptoInvoice transaction did, invoice by invoice. */
  ghost predicate Created(s: Db, t: Db, n: NewInvoice)
  {
    && n.order in s.orders && s.orders[n.order].state == Pending
    && t == s.(invoices := t.invoices, orders := s.orders[n.order := Order(Pending, Some(n.id))])
    && t.invoices.Keys == s.invoices.Keys + {n.id}
    && t.invoices[n.id] == Invoice(n.order, n.chain, n.contract, n.address, n.expected, n.created, n.expires, n.startBlock, Waiting, Awaiting)
    && (forall i :: i in s.invoices && i != n.id ==>
          if s.orders[n.order].current == Some(i) then
            && SameTerms(s.invoices[i], t.invoices[i])
            && s.invoices[i].attempt == Awaiting && t.invoices[i].attempt == AttemptCancelled
            && (s.invoices[i].state == Paid <==> t.invoices[i].state == Paid)
            && !AnyTransfer(s, n.order)
          else t.invoices[i] == s.invoices[i])
  }

  lemma CreateDoes(db: Db, n: NewInvoice)
    ensures CreateInvoice(db, n).Ok? ==> Created(db, CreateInvoice(db, n).value, n)
  {
  }

  lemma CreatedMakesFine(s: Sys, t: Sys, n: NewInvoice)
    requires InvoicesFine(s) && Allowed(s, Create(n))
    requires t == s.(db := t.db) && Created(s.db, t.db, n)
    ensures SameRows(s, t) && InvoicesFine(t)
  {
  }

  lemma CreateKeepsInv(s: Sys, n: NewInvoice)
    requires Inv(s) && Allowed(s, Create(n))
    ensures Inv(Step(s, Create(n)))
  {
    CreateDoes(s.db, n);
    if CreateInvoice(s.db, n).Ok? {
      CreatedKeepsInv(s, Step(s, Create(n)), n);
    }
  }

  lemma CreatedKeepsInv(s: Sys, t: Sys, n: NewInvoice)
    requires Inv(s) && Allowed(s, Create(n))
    requires t == s.(db := t.db) && Created(s.db, t.db, n)
    ensures Inv(t)
  {
    CreatedMakesFine(s, t, n);
    RowsFrame(s, t);
    forall i | i in s.db.invoices ensures ConfirmedAtoms(t.db, i) == ConfirmedAtoms(s.db, i) { ConfirmedFrame(s.db, t.db, i); }
    NothingStored(s, t, n.id);
    CreatedKeepsOpen(s, t, n);
    CreatedKeepsReceipts(s, t, n);
    CreatedKeepsExpiries(s, t, n);
    CreatedKeepsWhereabouts(s, t, n);
  }

  lemma CreatedKeepsWhereabouts(s: Sys, t: Sys, n: NewInvoice)
    requires Whereabouts(s) && n.id !in s.db.invoices
    requires t == s.(db := t.db) && Created(s.db, t.db, n)
    ensures Whereabouts(t)
  {
    forall i | i in t.db.invoices ensures Placed(t, i) {
      if i != n.id {
        assert Placed(s, i);
      }
    }
  }

  lemma CreatedKeepsOpen(s: Sys, t: Sys, n: NewInvoice)
    requires OpenUncovered(s) && n.expected > 0
    requires n.id !in s.db.invoices
    requires t == s.(db := t.db) && Created(s.db, t.db, n)
    requires forall i :: i in s.db.invoices ==> i in t.db.invoices && ConfirmedAtoms(t.db, i) == ConfirmedAtoms(s.db, i)
    requires ConfirmedAtoms(t.db, n.id) == 0
    ensures OpenUncovered(t)
  {
    forall i | Open(t.db, i) && i != n.id ensures Open(s.db, i) && t.db.invoices[i] == s.db.invoices[i] {}
  }

  lemma CreatedKeepsReceipts(s: Sys, t: Sys, n: NewInvoice)
    requires ReceiptsFine(s)
    requires n.id !in s.db.invoices
    requires t == s.(db := t.db) && Created(s.db, t.db, n)
    requires forall i :: i in s.db.invoices ==> i in t.db.invoices && ConfirmedAtoms(t.db, i) == ConfirmedAtoms(s.db, i)
    ensures ReceiptsFine(t)
  {
    forall r | r in t.db.receipts ensures ReceiptFine(t, r) { assert ReceiptFine(s, r); }
    forall i | i in t.db.invoices && t.db.invoices[i].state == Paid
      ensures Receipt(i, t.db.invoices[i].order) in t.db.receipts
    {
      assert i in s.db.invoices && s.db.invoices[i].state == Paid;
    }
  }

  lemma CreatedKeepsExpiries(s: Sys, t: Sys, n: NewInvoice)
    requires ExpiriesFine(s)
    requires n.id !in s.db.invoices
    requires t == s.(db := t.db) && Created(s.db, t.db, n)
    requires forall i :: i in s.db.invoices ==> i in t.db.invoices && ConfirmedAtoms(t.db, i) == ConfirmedAtoms(s.db, i)
    ensures ExpiriesFine(t)
  {
    forall o | o in t.db.orders && t.db.orders[o].state == OrderExpired && t.db.orders[o].current.Some?
      ensures t.db.orders[o] == s.db.orders[o] && PastDeadline(t, t.db.orders[o].current.value)
    {
      assert PastDeadline(s, t.db.orders[o].current.value);
    }
  }

  /** No transfer is stored for an invoice that did not exist. */
  lemma NothingStored(s: Sys, t: Sys, i: InvoiceId)
    requires RowsSound(s) && i !in s.db.invoices && i in t.db.invoices && t.db.transfers == s.db.transfers
    ensures ConfirmedAtoms(t.db, i) == 0
  {
    forall k | k in s.db.transfers ensures s.db.transfers[k].invoice != i
    {
      var a :| Backs(s, k, a);
    }
    assert ConfirmedKeys(t.db, i) == {};
  }

  lemma FirstScanKeepsBooks(s: Sys, t: Sys, k: CursorKey, start: nat)
    requires Books(s) && Allowed(s, FirstScan(k, start)) && k !in s.db.cursors
    requires t == s.(db := s.db.(cursors := s.db.cursors[k := Cursor(start, start, None)]))
    ensures Books(t)
  {
    forall ck | ck in t.db.cursors ensures CursorFine(t, ck) { if ck != k { assert CursorFine(s, ck); } }
    forall ck, a
      ensures Passed(t, ck, a) <==> Passed(s, ck, a)
      ensures Passed(s, ck, a) ==> PassedKey(t, ck, a) == PassedKey(s, ck, a) && PassedRow(t, ck, a) == PassedRow(s, ck, a)
    {
      FirstScanPasses(s, t, k, start, ck, a);
    }
    RowsFollow(s, t);
  }

  lemma FirstScanPasses(s: Sys, t: Sys, k: CursorKey, start: nat, ck: CursorKey, a: nat)
    requires k !in s.db.cursors && t == s.(db := s.db.(cursors := s.db.cursors[k := Cursor(start, start, None)]))
    ensures Passed(t, ck, a) <==> Passed(s, ck, a)
    ensures Passed(s, ck, a) ==> PassedKey(t, ck, a) == PassedKey(s, ck, a) && PassedRow(t, ck, a) == PassedRow(s, ck, a)
  {
  }

  lemma FirstScanKeepsInv(s: Sys, k: CursorKey, start: nat)
    requires Inv(s) && Allowed(s, FirstScan(k, start))
    ensures Inv(Step(s, FirstScan(k, start)))
  {
    var t := Step(s, FirstScan(k, start));
    if k !in s.db.cursors {
      FirstScanKeepsBooks(s, t, k, start);
      SameMoney(s, t);
    }
  }

  /** Steps that change no invoice, order, receipt or transfer keep what they say about money. */
  lemma SameMoney(s: Sys, t: Sys)
    requires Inv(s) && Books(t)
    requires t.db.invoices == s.db.invoices && t.db.orders == s.db.orders && t.db.receipts == s.db.receipts
    requires t.db.transfers == s.db.transfers && t.dropped == s.dropped
    requires forall i :: PastDeadline(s, i) ==> PastDeadline(t, i)
    ensures Inv(t)
  {
    forall i | i in t.db.invoices ensures Placed(t, i) { assert Placed(s, i); }
    forall i | i in s.db.invoices ensures ConfirmedAtoms(t.db, i) == ConfirmedAtoms(s.db, i) { ConfirmedFrame(s.db, t.db, i); }
    forall r | r in t.db.receipts ensures ReceiptFine(t, r) { assert ReceiptFine(s, r); }
    forall i | Open(t.db, i) ensures Open(s.db, i) {}
  }

  lemma PassedFollows(s: Sys, t: Sys, c: ChainId, n: Chain, ck: CursorKey, a: nat)
    requires t == s.(chains := s.chains[c := n]) && (c in s.chains ==> Extends(s.chains[c], n))
    requires ck in s.db.cursors && CursorFine(s, ck) && (Passed(t, ck, a) || Passed(s, ck, a))
    ensures Passed(s, ck, a) && Passed(t, ck, a) && PassedKey(t, ck, a) == PassedKey(s, ck, a) && PassedRow(t, ck, a) == PassedRow(s, ck, a)
  {
  }

  lemma FinalizeKeepsBooks(s: Sys, c: ChainId, n: Chain)
    requires Books(s) && Allowed(s, Finalize(c, n))
    ensures Books(Step(s, Finalize(c, n)))
  {
    var t := Step(s, Finalize(c, n));
    forall ck | ck in t.db.cursors ensures CursorFine(t, ck) { assert CursorFine(s, ck); }
    forall ck, a | Passed(t, ck, a) || Passed(s, ck, a)
      ensures Passed(s, ck, a) && Passed(t, ck, a) && PassedKey(t, ck, a) == PassedKey(s, ck, a) && PassedRow(t, ck, a) == PassedRow(s, ck, a)
    {
      assert CursorFine(s, ck);
      PassedFollows(s, t, c, n, ck, a);
    }
    RowsFollow(s, t);
  }

  lemma FinalizeKeepsInv(s: Sys, c: ChainId, n: Chain)
    requires Inv(s) && Allowed(s, Finalize(c, n))
    ensures Inv(Step(s, Finalize(c, n)))
  {
    var t := Step(s, Finalize(c, n));
    FinalizeKeepsBooks(s, c, n);
    forall i | PastDeadline(s, i) ensures PastDeadline(t, i) {}
    SameMoney(s, t);
  }
}
