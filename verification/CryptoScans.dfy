/** One scan transaction: which rows it stores, and what its settlement may conclude. */
module CryptoScans {
  import opened Common
  import opened Sums
  import opened CryptoModel
  import opened CryptoSafety

  // ------------------------------------------------------------- the item loop

  /** The logs of one window: addressed to the invoice, new to the table, one item per log. */
  ghost predicate GoodItems(rows: map<TransferKey, Transfer>, v: Invoice, chain: ChainId, items: seq<Item>)
  {
    && (forall it :: it in items ==> it.log.to == v.address)
    && (forall it :: it in items && it.final && it.log.atoms > 0 ==> KeyOf(chain, it.log) !in rows)
    && (forall it, ju :: it in items && ju in items && it.final && ju.final && KeyOf(chain, it.log) == KeyOf(chain, ju.log) ==> it == ju)
  }

  ghost predicate Lands(chain: ChainId, items: seq<Item>, k: TransferKey, it: Item)
  {
    it in items && it.final && it.log.atoms > 0 && KeyOf(chain, it.log) == k
  }

  ghost predicate Seen(chain: ChainId, id: InvoiceId, items: seq<Item>, o: ObservationKey, n: Observation, it: Item)
  {
    it in items && !it.final && o.chain == chain && n.invoice == id && n.block == it.log.block
  }

  /** The rows added are those of the final items; every observation is an old one or an item's. */
  ghost predicate ItemsEffect(t: Tables, u: Tables, id: InvoiceId, v: Invoice, chain: ChainId, items: seq<Item>)
  {
    && (forall k :: k in t.transfers ==> k in u.transfers && u.transfers[k] == t.transfers[k])
    && (forall k :: k in u.transfers && k !in t.transfers ==> exists it :: Lands(chain, items, k, it))
    && (forall k, it :: Lands(chain, items, k, it) ==> k in u.transfers && u.transfers[k] == RowOf(id, v, chain, it))
    && (forall o :: o in u.observations ==>
          || (o in t.observations && u.observations[o] == t.observations[o])
          || (exists it :: Seen(chain, id, items, o, u.observations[o], it)))
  }

  lemma {:induction false} ApplyItemsEffect(t: Tables, id: InvoiceId, v: Invoice, chain: ChainId, items: seq<Item>)
    requires GoodItems(t.transfers, v, chain, items)
    ensures ApplyItems(t, id, v, chain, items).Ok?
    ensures ItemsEffect(t, ApplyItems(t, id, v, chain, items).value, id, v, chain, items)
    decreases |items|
  {
    if items == [] {
    } else {
      var front, it := items[..|items| - 1], items[|items| - 1];
      ApplyItemsEffect(t, id, v, chain, front);
      OneMoreItem(t, ApplyItems(t, id, v, chain, front).value, id, v, chain, front, it);
      assert items == front + [it];
    }
  }

  lemma OneMoreItem(t: Tables, u: Tables, id: InvoiceId, v: Invoice, chain: ChainId, front: seq<Item>, it: Item)
    requires GoodItems(t.transfers, v, chain, front + [it])
    requires ItemsEffect(t, u, id, v, chain, front)
    ensures ApplyItem(u, id, v, chain, it).Ok?
    ensures ItemsEffect(t, ApplyItem(u, id, v, chain, it).value, id, v, chain, front + [it])
  {
    var items := front + [it];
    var k := KeyOf(chain, it.log);
    assert it in items;
    forall j | j in front ensures j in items {}
    if it.final && it.log.atoms > 0 && k in u.transfers {
      var ju :| Lands(chain, front, k, ju);
      assert ju == it;
    }
    var w := ApplyItem(u, id, v, chain, it).value;
    forall q, ju | Lands(chain, items, q, ju) ensures q in w.transfers && w.transfers[q] == RowOf(id, v, chain, ju)
    {
      if ju in front {
        assert Lands(chain, front, q, ju);
        if it.final && it.log.atoms > 0 && q == k { assert ju == it; }
      }
    }
    forall q | q in w.transfers && q !in t.transfers ensures exists ju :: Lands(chain, items, q, ju)
    {
      if q in u.transfers {
        var ju :| Lands(chain, front, q, ju);
        assert Lands(chain, items, q, ju);
      } else {
        assert Lands(chain, items, q, it);
      }
    }
    forall o | o in w.observations && !(o in t.observations && w.observations[o] == t.observations[o])
      ensures exists ju :: Seen(chain, id, items, o, w.observations[o], ju)
    {
      if o in u.observations && w.observations[o] == u.observations[o] {
        var ju :| Seen(chain, id, front, o, u.observations[o], ju);
        assert Seen(chain, id, items, o, w.observations[o], ju);
      } else {
        assert Seen(chain, id, items, o, w.observations[o], it);
      }
    }
  }

  // ---------------------------------------------------- the rows of one window

  /** A log has one row, and the row belongs to the invoice that the log pays. */
  lemma StoredOwner(s: Sys, c: ChainId, b: nat, i: InvoiceId)
    requires ChainsFine(s) && InvoicesFine(s) && RowsSound(s)
    requires c in s.chains && b < |s.chains[c].logs| && i in s.db.invoices
    requires s.chains[c].logs[b].to == s.db.invoices[i].address
    requires KeyOf(c, s.chains[c].logs[b]) in s.db.transfers
    ensures s.db.transfers[KeyOf(c, s.chains[c].logs[b])].invoice == i
    ensures CursorKey(i, c) in s.db.cursors && s.chains[c].logs[b].block < s.db.cursors[CursorKey(i, c)].next
  {
    var k := KeyOf(c, s.chains[c].logs[b]);
    var a :| Backs(s, k, a);
    assert a == b;
  }

  /** A scan that starts at its cursor brings only rows the table does not hold yet. */
  lemma HonestIsGood(s: Sys, w: Scan)
    requires Books(s) && Honest(s, w)
    requires CursorKey(w.invoice, w.chain) in s.db.cursors && s.db.cursors[CursorKey(w.invoice, w.chain)].next == w.from
    ensures GoodItems(s.db.transfers, s.db.invoices[w.invoice], w.chain, w.items)
  {
    var ch := s.chains[w.chain];
    assert WellFormed(ch);
    forall it | it in w.items && it.final && it.log.atoms > 0 ensures KeyOf(w.chain, it.log) !in s.db.transfers
    {
      NotStoredYet(s, w, it);
    }
    forall it, ju | it in w.items && ju in w.items && it.final && ju.final && KeyOf(w.chain, it.log) == KeyOf(w.chain, ju.log)
      ensures it == ju
    {
      var a :| 0 <= a < |ch.logs| && ch.logs[a] == it.log;
      var b :| 0 <= b < |ch.logs| && ch.logs[b] == ju.log;
      assert a == b;
    }
  }

  lemma NotStoredYet(s: Sys, w: Scan, it: Item)
    requires ChainsFine(s) && InvoicesFine(s) && RowsSound(s) && Honest(s, w)
    requires CursorKey(w.invoice, w.chain) in s.db.cursors && s.db.cursors[CursorKey(w.invoice, w.chain)].next == w.from
    requires it in w.items && it.final
    ensures KeyOf(w.chain, it.log) !in s.db.transfers
  {
    var ch := s.chains[w.chain];
    var b :| 0 <= b < |ch.logs| && ch.logs[b] == it.log;
    if KeyOf(w.chain, it.log) in s.db.transfers {
      StoredOwner(s, w.chain, b, w.invoice);
    }
  }

  /** The state in which `s`'s scan `w` leaves the rows, before settlement. */
  ghost predicate Scanned(s: Sys, t: Sys, w: Scan)
  {
    var ck := CursorKey(w.invoice, w.chain);
    && w.invoice in s.db.invoices
    && ck in s.db.cursors && s.db.cursors[ck].next == w.from
    && t == s.(db := s.db.(transfers := t.db.transfers, observations := t.db.observations,
                           cursors := s.db.cursors[ck := s.db.cursors[ck].(next := w.next, hash := w.hash)]))
    && ItemsEffect(Tables(s.db.transfers, Unswept(s.db.observations, w)), Tables(t.db.transfers, t.db.observations),
                   w.invoice, s.db.invoices[w.invoice], w.chain, w.items)
  }

  /** A row that was there stays as it is. */
  lemma OldRowStays(s: Sys, t: Sys, w: Scan, k: TransferKey)
    requires Scanned(s, t, w) && k in s.db.transfers
    ensures k in t.db.transfers && t.db.transfers[k] == s.db.transfers[k]
  {
  }

  lemma StillBacks(s: Sys, t: Sys, w: Scan, k: TransferKey, a: nat)
    requires k in s.db.transfers && k in t.db.transfers && t.db.transfers[k] == s.db.transfers[k]
    requires CursorKey(w.invoice, w.chain) in s.db.cursors && s.db.cursors[CursorKey(w.invoice, w.chain)].next <= w.next
    requires t == s.(db := s.db.(transfers := t.db.transfers, observations := t.db.observations, cursors := t.db.cursors))
    requires var ck := CursorKey(w.invoice, w.chain); t.db.cursors == s.db.cursors[ck := s.db.cursors[ck].(next := w.next, hash := w.hash)]
    requires Backs(s, k, a)
    ensures Backs(t, k, a)
  {
  }

  lemma OldRowSound(s: Sys, t: Sys, w: Scan, k: TransferKey)
    requires CursorsFine(s) && RowsSound(s) && Honest(s, w) && Scanned(s, t, w)
    requires k in s.db.transfers
    ensures k in t.db.transfers && exists a :: Backs(t, k, a)
  {
    var a :| Backs(s, k, a);
    OldRowStays(s, t, w, k);
    StillBacks(s, t, w, k, a);
  }

  lemma NewRowSound(s: Sys, t: Sys, w: Scan, k: TransferKey)
    requires ChainsFine(s) && CursorsFine(s) && Honest(s, w) && Scanned(s, t, w)
    requires k in t.db.transfers && k !in s.db.transfers
    ensures exists a :: Backs(t, k, a)
  {
    var it :| Lands(w.chain, w.items, k, it);
    var ch := s.chains[w.chain];
    var a :| 0 <= a < |ch.logs| && ch.logs[a] == it.log;
    assert CursorFine(s, CursorKey(w.invoice, w.chain));
    assert Backs(t, k, a);
  }

  lemma ScannedRowsSound(s: Sys, t: Sys, w: Scan)
    requires ChainsFine(s) && CursorsFine(s) && RowsSound(s) && Honest(s, w) && Scanned(s, t, w)
    ensures RowsSound(t)
  {
    forall k | k in t.db.transfers ensures exists a :: Backs(t, k, a)
    {
      if k in s.db.transfers {
        OldRowSound(s, t, w, k);
      } else {
        NewRowSound(s, t, w, k);
      }
    }
  }

  lemma ScannedRowsComplete(s: Sys, t: Sys, w: Scan)
    requires Books(s) && Honest(s, w) && Scanned(s, t, w)
    ensures RowsComplete(t)
  {
    forall ck, a: nat | Passed(t, ck, a)
      ensures PassedKey(t, ck, a) in t.db.transfers && t.db.transfers[PassedKey(t, ck, a)] == PassedRow(t, ck, a)
    {
      if Passed(s, ck, a) {
        assert PassedKey(s, ck, a) in s.db.transfers;
      } else {
        var ch := s.chains[w.chain];
        assert ck == CursorKey(w.invoice, w.chain);
        assert InWindow(s, w, ch.logs[a]);
        assert Lands(w.chain, w.items, PassedKey(t, ck, a), ItemAt(ch, ch.logs[a]));
      }
    }
  }

  lemma ScannedObservations(s: Sys, t: Sys, w: Scan)
    requires ObservationsAhead(s) && Honest(s, w) && Scanned(s, t, w)
    ensures ObservationsAhead(t)
  {
    var swept := Unswept(s.db.observations, w);
    forall o | o in t.db.observations
      ensures CursorKey(t.db.observations[o].invoice, o.chain) in t.db.cursors
           && t.db.cursors[CursorKey(t.db.observations[o].invoice, o.chain)].next <= t.db.observations[o].block
    {
      if o in swept && t.db.observations[o] == swept[o] {
        assert o in s.db.observations && t.db.observations[o] == s.db.observations[o];
      } else {
        var it :| Seen(w.chain, w.invoice, w.items, o, t.db.observations[o], it);
      }
    }
  }

  lemma ScannedBooks(s: Sys, t: Sys, w: Scan)
    requires Books(s) && Honest(s, w) && Scanned(s, t, w)
    ensures Books(t)
  {
    ScannedRowsSound(s, t, w);
    ScannedRowsComplete(s, t, w);
    ScannedObservations(s, t, w);
  }

  // ------------------------------------------------------- confirmed amounts

  ghost function AtomsOf(db: Db): TransferKey -> int
  {
    k => if k in db.transfers then db.transfers[k].atoms else 0
  }

  lemma ConfirmedIsSum(db: Db, i: InvoiceId)
    requires i in db.invoices
    ensures ConfirmedAtoms(db, i) == Sum(ConfirmedKeys(db, i), AtomsOf(db))
  {
    SumCongruence(ConfirmedKeys(db, i), AtomsOf(db), k => if k in db.transfers then db.transfers[k].atoms else 0);
  }

  /** Scan `w` cannot add to what counts for invoice `i`. */
  ghost predicate Untouched(s: Sys, w: Scan, i: InvoiceId)
    requires i in s.db.invoices
  {
    i != w.invoice || w.chain != s.db.invoices[i].chain || PastDeadline(s, i)
  }

  /** A scan adds to its own invoice and network only, and adds nothing once the deadline is past. */
  lemma ScannedConfirmed(s: Sys, t: Sys, w: Scan, i: InvoiceId)
    requires Books(s) && Honest(s, w) && Scanned(s, t, w) && i in s.db.invoices
    ensures ConfirmedAtoms(s.db, i) <= ConfirmedAtoms(t.db, i)
    ensures Untouched(s, w, i) ==> ConfirmedAtoms(t.db, i) == ConfirmedAtoms(s.db, i)
  {
    var before, after := ConfirmedKeys(s.db, i), ConfirmedKeys(t.db, i);
    ConfirmedIsSum(s.db, i);
    ConfirmedIsSum(t.db, i);
    SumCongruence(before, AtomsOf(s.db), AtomsOf(t.db));
    assert before <= after;
    SumSuperset(before, after, AtomsOf(t.db));
    if Untouched(s, w, i) {
      forall k | k in after ensures k in before { ConfirmedWasThere(s, t, w, i, k); }
      assert before == after;
    }
  }

  lemma ConfirmedWasThere(s: Sys, t: Sys, w: Scan, i: InvoiceId, k: TransferKey)
    requires ChainsFine(s) && Honest(s, w) && Scanned(s, t, w) && i in s.db.invoices
    requires Untouched(s, w, i)
    requires k in ConfirmedKeys(t.db, i)
    ensures k in ConfirmedKeys(s.db, i)
  {
  }

  // ---------------------------------------------------------------- settlement

  /** Everything but the scanned invoice, which settlement looks at next, is in order. */
  ghost predicate Unsettled(s: Sys, i: InvoiceId)
  {
    Books(s) && ReceiptsFine(s) && ExpiriesFine(s) && Whereabouts(s) && OpenBut(s, i) && i in s.db.invoices
  }

  ghost predicate OpenBut(s: Sys, i: InvoiceId)
  {
    forall j :: Open(s.db, j) ==>
      && (s.db.invoices[j].state == Waiting || s.db.invoices[j].state == ReviewRequired)
      && (j != i ==> ConfirmedAtoms(s.db, j) < s.db.invoices[j].expected)
  }

  lemma ScannedReceipts(s: Sys, t: Sys, w: Scan)
    requires ReceiptsFine(s) && Scanned(s, t, w)
    requires forall i :: i in s.db.invoices ==> ConfirmedAtoms(s.db, i) <= ConfirmedAtoms(t.db, i)
    ensures ReceiptsFine(t)
  {
    forall r | r in t.db.receipts ensures ReceiptFine(t, r) { assert ReceiptFine(s, r); }
  }

  lemma ScannedOpen(s: Sys, t: Sys, w: Scan)
    requires OpenUncovered(s) && Scanned(s, t, w)
    requires forall i :: i in s.db.invoices && i != w.invoice ==> ConfirmedAtoms(t.db, i) == ConfirmedAtoms(s.db, i)
    ensures OpenBut(t, w.invoice)
  {
    forall j | Open(t.db, j) ensures Open(s.db, j) {}
  }

  lemma ScannedUnsettled(s: Sys, t: Sys, w: Scan)
    requires Inv(s) && Honest(s, w) && Scanned(s, t, w)
    ensures Unsettled(t, w.invoice)
  {
    ScannedBooks(s, t, w);
    forall i | i in s.db.invoices
      ensures ConfirmedAtoms(s.db, i) <= ConfirmedAtoms(t.db, i)
      ensures Untouched(s, w, i) ==> ConfirmedAtoms(t.db, i) == ConfirmedAtoms(s.db, i)
    {
      ScannedConfirmed(s, t, w, i);
    }
    ScannedReceipts(s, t, w);
    ScannedOpen(s, t, w);
    ScannedExpiries(s, t, w);
    ScannedWhereabouts(s, t, w);
  }

  lemma ScannedWhereabouts(s: Sys, t: Sys, w: Scan)
    requires Whereabouts(s) && Scanned(s, t, w)
    ensures Whereabouts(t)
  {
    forall i | i in t.db.invoices ensures Placed(t, i) { assert Placed(s, i); }
  }

  lemma ScannedExpiries(s: Sys, t: Sys, w: Scan)
    requires ExpiriesFine(s) && CursorsFine(s) && InvoicesFine(s) && Honest(s, w) && Scanned(s, t, w)
    requires forall i :: i in s.db.invoices && PastDeadline(s, i) ==> ConfirmedAtoms(t.db, i) == ConfirmedAtoms(s.db, i)
    ensures ExpiriesFine(t)
  {
    forall o | o in t.db.orders && t.db.orders[o].state == OrderExpired && t.db.orders[o].current.Some?
      ensures PastDeadline(t, t.db.orders[o].current.value)
    {
      assert PastDeadline(s, t.db.orders[o].current.value);
      assert CursorFine(s, CursorKey(w.invoice, w.chain));
    }
  }

  datatype Outcome = Covered | Lapsed | Kept

  /** What settlement did to the invoice and its order, and why. */
  ghost predicate Settled(db: Db, eb: Db, i: InvoiceId, how: Outcome)
  {
    && i in db.invoices && db.invoices[i].order in db.orders
    && (var v := db.invoices[i];
        var o := v.order;
        && eb == db.(receipts := eb.receipts, invoices := eb.invoices, orders := eb.orders)
        && i in eb.invoices && SameTerms(v, eb.invoices[i]) && eb.invoices == db.invoices[i := eb.invoices[i]]
        && match how
           case Covered =>
             && Open(db, i) && ConfirmedAtoms(db, i) >= v.expected
             && eb.receipts == db.receipts + [Receipt(i, o)]
             && eb.orders == db.orders
             && eb.invoices[i].state == Paid && eb.invoices[i].attempt == AttemptPaid
           case Lapsed =>
             && db.orders[o] == Order(Pending, Some(i)) && ConfirmedAtoms(db, i) < v.expected
             && eb.receipts == db.receipts
             && eb.orders == db.orders[o := Order(OrderExpired, Some(i))]
             && v.state != Paid && eb.invoices[i].state != Paid
             && eb.invoices[i].attempt == (if v.attempt == Awaiting then AttemptExpired else v.attempt)
           case Kept =>
             && eb.receipts == db.receipts && eb.orders == db.orders
             && eb.invoices[i].attempt == v.attempt
             && (eb.invoices[i].state == Paid <==> v.state == Paid)
             && (eb.invoices[i].state == v.state || eb.invoices[i].state == ReviewRequired)
             && (v.state != Paid && ConfirmedAtoms(db, i) > 0 && db.orders[o] != Order(Pending, Some(i)) ==> eb.invoices[i].state == ReviewRequired)
             && (v.state == Waiting || v.state == ReviewRequired ==> !(Open(db, i) && ConfirmedAtoms(db, i) >= v.expected)))
  }

  lemma SettleDoes(db: Db, i: InvoiceId, deadlineFinal: bool) returns (how: Outcome)
    requires Settle(db, i, deadlineFinal).Ok?
    ensures Settled(db, Settle(db, i, deadlineFinal).value, i, how)
    ensures how == Lapsed ==> deadlineFinal
  {
    var e := Settle(db, i, deadlineFinal).value;
    how := if e.receipts != db.receipts then Covered else if e.orders != db.orders then Lapsed else Kept;
  }

  lemma SettleSucceeds(s: Sys, i: InvoiceId, deadlineFinal: bool)
    requires Unsettled(s, i)
    ensures Settle(s.db, i, deadlineFinal).Ok?
  {
    forall r | r in s.db.receipts ensures ReceiptFine(s, r) {}
  }

  lemma SettledReceipts(s: Sys, t: Sys, i: InvoiceId, how: Outcome)
    requires ReceiptsFine(s) && Settled(s.db, t.db, i, how) && t == s.(db := t.db)
    requires forall j :: j in s.db.invoices ==> ConfirmedAtoms(t.db, j) == ConfirmedAtoms(s.db, j)
    ensures ReceiptsFine(t)
  {
    forall r | r in t.db.receipts ensures ReceiptFine(t, r)
    {
      if r in s.db.receipts {
        assert ReceiptFine(s, r);
      }
    }
    forall r | r in s.db.receipts ensures r in t.db.receipts && ReceiptFine(s, r) {}
    forall a | 0 <= a < |s.db.receipts| && how == Covered ensures s.db.receipts[a].order != s.db.invoices[i].order
    {
      assert ReceiptFine(s, s.db.receipts[a]);
    }
    if how == Covered {
      assert t.db.receipts[|s.db.receipts|] == Receipt(i, s.db.invoices[i].order);
    }
  }

  lemma SettledExpiries(s: Sys, t: Sys, i: InvoiceId, how: Outcome)
    requires ExpiriesFine(s) && Settled(s.db, t.db, i, how) && t == s.(db := t.db)
    requires how == Lapsed ==> PastDeadline(s, i)
    requires forall j :: j in s.db.invoices ==> ConfirmedAtoms(t.db, j) == ConfirmedAtoms(s.db, j)
    ensures ExpiriesFine(t)
  {
    forall o | o in t.db.orders && t.db.orders[o].state == OrderExpired && t.db.orders[o].current.Some?
      ensures PastDeadline(t, t.db.orders[o].current.value)
           && ConfirmedAtoms(t.db, t.db.orders[o].current.value) < t.db.invoices[t.db.orders[o].current.value].expected
    {
      assert PastDeadline(s, t.db.orders[o].current.value);
    }
  }

  lemma SettledOpen(s: Sys, t: Sys, i: InvoiceId, how: Outcome)
    requires OpenBut(s, i) && Settled(s.db, t.db, i, how) && t == s.(db := t.db)
    requires forall j :: j in s.db.invoices ==> ConfirmedAtoms(t.db, j) == ConfirmedAtoms(s.db, j)
    ensures OpenUncovered(t)
  {
    forall j | Open(t.db, j) ensures Open(s.db, j) {}
  }

  lemma SettledRows(s: Sys, t: Sys, i: InvoiceId, how: Outcome)
    requires InvoicesFine(s) && Settled(s.db, t.db, i, how) && t == s.(db := t.db)
    ensures SameRows(s, t) && InvoicesFine(t)
  {
  }

  lemma SettledKeepsInv(s: Sys, t: Sys, i: InvoiceId, how: Outcome)
    requires Unsettled(s, i) && Settled(s.db, t.db, i, how) && t == s.(db := t.db)
    requires how == Lapsed ==> PastDeadline(s, i)
    ensures Inv(t)
  {
    SettledRows(s, t, i, how);
    RowsFrame(s, t);
    forall j | j in s.db.invoices ensures ConfirmedAtoms(t.db, j) == ConfirmedAtoms(s.db, j) { ConfirmedFrame(s.db, t.db, j); }
    SettledReceipts(s, t, i, how);
    SettledExpiries(s, t, i, how);
    SettledOpen(s, t, i, how);
    SettledWhereabouts(s, t, i, how);
  }

  lemma SettledWhereabouts(s: Sys, t: Sys, i: InvoiceId, how: Outcome)
    requires Whereabouts(s) && Settled(s.db, t.db, i, how) && t == s.(db := t.db)
    ensures Whereabouts(t)
  {
    forall j | j in t.db.invoices ensures Placed(t, j) { assert Placed(s, j); }
  }

  // ---------------------------------------------------------- the whole scan step

  /** The rows after the item loop. */
  lemma ScanStage(s: Sys, w: Scan) returns (t: Sys)
    requires Books(s) && Honest(s, w) && w.chain !in s.db.frozen
    requires CursorKey(w.invoice, w.chain) in s.db.cursors && s.db.cursors[CursorKey(w.invoice, w.chain)].next == w.from
    ensures Scanned(s, t, w)
    ensures ApplyScan(s.db, w) == Settle(t.db, w.invoice, DeadlineFinal(s.db.invoices[w.invoice], w))
    ensures ApplyItems(Tables(s.db.transfers, Unswept(s.db.observations, w)), w.invoice, s.db.invoices[w.invoice], w.chain, w.items)
              == Ok(Tables(t.db.transfers, t.db.observations))
  {
    var ck := CursorKey(w.invoice, w.chain);
    var v := s.db.invoices[w.invoice];
    var u := Tables(s.db.transfers, Unswept(s.db.observations, w));
    HonestIsGood(s, w);
    ApplyItemsEffect(u, w.invoice, v, w.chain, w.items);
    var r := ApplyItems(u, w.invoice, v, w.chain, w.items).value;
    t := s.(db := s.db.(transfers := r.transfers, observations := r.observations,
                        cursors := s.db.cursors[ck := s.db.cursors[ck].(next := w.next, hash := w.hash)]));
  }

  /** An honest scan never fails on a network that is not frozen: no false finality alarm. */
  lemma HonestScanCommits(s: Sys, w: Scan) returns (t: Sys)
    requires Inv(s) && Honest(s, w) && w.chain !in s.db.frozen
    requires CursorKey(w.invoice, w.chain) in s.db.cursors && s.db.cursors[CursorKey(w.invoice, w.chain)].next == w.from
    ensures Scanned(s, t, w) && Unsettled(t, w.invoice)
    ensures ApplyScan(s.db, w).Ok?
    ensures ApplyScan(s.db, w) == Settle(t.db, w.invoice, DeadlineFinal(s.db.invoices[w.invoice], w))
    ensures ApplyItems(Tables(s.db.transfers, Unswept(s.db.observations, w)), w.invoice, s.db.invoices[w.invoice], w.chain, w.items)
              == Ok(Tables(t.db.transfers, t.db.observations))
  {
    t := ScanStage(s, w);
    ScannedUnsettled(s, t, w);
    SettleSucceeds(t, w.invoice, DeadlineFinal(s.db.invoices[w.invoice], w));
  }

  lemma ScanStepDoes(s: Sys, t: Sys, w: Scan) returns (how: Outcome)
    requires w.invoice in s.db.invoices && Scanned(s, t, w) && ApplyScan(s.db, w).Ok?
    requires ApplyScan(s.db, w) == Settle(t.db, w.invoice, DeadlineFinal(s.db.invoices[w.invoice], w))
    ensures Step(s, Apply(w)) == t.(db := Step(s, Apply(w)).db)
    ensures Settled(t.db, Step(s, Apply(w)).db, w.invoice, how)
    ensures how == Lapsed ==> DeadlineFinal(s.db.invoices[w.invoice], w)
  {
    how := SettleDoes(t.db, w.invoice, DeadlineFinal(s.db.invoices[w.invoice], w));
  }

  lemma DeadlineIsPast(s: Sys, t: Sys, w: Scan)
    requires Honest(s, w) && Scanned(s, t, w) && DeadlineFinal(s.db.invoices[w.invoice], w)
    ensures PastDeadline(t, w.invoice)
  {
    assert t.chains[w.chain].heads[w.finalNumber].time > t.db.invoices[w.invoice].expires;
  }

  lemma CommittedKeepsInv(s: Sys, t: Sys, w: Scan)
    requires Honest(s, w) && Scanned(s, t, w) && Unsettled(t, w.invoice) && ApplyScan(s.db, w).Ok?
    requires ApplyScan(s.db, w) == Settle(t.db, w.invoice, DeadlineFinal(s.db.invoices[w.invoice], w))
    ensures Inv(Step(s, Apply(w)))
  {
    var how := ScanStepDoes(s, t, w);
    if how == Lapsed { DeadlineIsPast(s, t, w); }
    SettledKeepsInv(t, Step(s, Apply(w)), w.invoice, how);
  }

  lemma FrozenScan(s: Sys, w: Scan)
    requires w.chain in s.db.frozen
    ensures Step(s, Apply(w)) == s.(db := Freeze(s.db, w.chain))
  {
  }

  lemma FreezeKeepsInv(s: Sys, t: Sys, c: ChainId)
    requires Inv(s) && t == s.(db := Freeze(s.db, c))
    ensures Inv(t)
  {
    OrderActionKeepsInv(s, t);
  }

  lemma StaleScanKeeps(s: Sys, w: Scan)
    requires w.chain !in s.db.frozen
    requires CursorKey(w.invoice, w.chain) !in s.db.cursors || s.db.cursors[CursorKey(w.invoice, w.chain)].next != w.from
    ensures Step(s, Apply(w)) == s
  {
  }

  lemma ScanKeepsInv(s: Sys, w: Scan)
    requires Inv(s) && Honest(s, w)
    ensures Inv(Step(s, Apply(w)))
  {
    if w.chain in s.db.frozen {
      FrozenScan(s, w);
      FreezeKeepsInv(s, Step(s, Apply(w)), w.chain);
    } else if CursorKey(w.invoice, w.chain) !in s.db.cursors || s.db.cursors[CursorKey(w.invoice, w.chain)].next != w.from {
      StaleScanKeeps(s, w);
    } else {
      var t := HonestScanCommits(s, w);
      CommittedKeepsInv(s, t, w);
    }
  }

  lemma StepKeepsInv(s: Sys, e: Event)
    requires Inv(s) && Allowed(s, e)
    ensures Inv(Step(s, e))
  {
    match e
    case Finalize(c, n) => FinalizeKeepsInv(s, c, n);
    case Create(n) => CreateKeepsInv(s, n);
    case FirstScan(k, start) => FirstScanKeepsInv(s, k, start);
    case Apply(w) => ScanKeepsInv(s, w);
    case Expire(o) => if o in s.read { ExpireReadKeepsInv(s, o); }
    case _ =>
      ActionsAreOrderActions(s, e);
      OrderActionKeepsInv(s, Step(s, e));
  }

  lemma {:induction false} RunKeepsInv(s: Sys, es: seq<Event>, t: Sys)
    requires Inv(s) && Reaches(s, es, t)
    ensures Inv(t)
    decreases |es|
  {
    if es != [] {
      StepKeepsInv(s, es[0]);
      RunKeepsInv(Step(s, es[0]), es[1..], t);
    }
  }

  lemma InitIsInv(s: Sys)
    requires Init(s)
    ensures Inv(s)
  {
  }
}
