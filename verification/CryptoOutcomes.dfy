/** The whole outcome of one committed scan, in terms of the chain and the rows: what is paid, what
    expires, what is marked for review, and which unfinalized transfers stay on view. */
module CryptoOutcomes {
  import opened Common
  import opened Sums
  import opened CryptoModel
  import opened CryptoSafety
  import opened CryptoScans
  import opened CryptoTheorems
  import opened CryptoOrders

  // ------------------------------------------------------------------ unfinalized transfers

  ghost predicate TxStored(rows: map<TransferKey, Transfer>, chain: ChainId, tx: Hash)
  {
    exists k :: k in rows && k.chain == chain && k.tx == tx
  }

  ghost predicate Sights(chain: ChainId, items: seq<Item>, o: ObservationKey, it: Item)
  {
    it in items && !it.final && it.log.atoms > 0 && o == ObservationKey(chain, it.log.tx, it.hash, it.log.index)
  }

  function Sighting(id: InvoiceId, it: Item): Observation { Observation(id, it.log.contract, it.log.atoms, it.log.block, it.time) }

  /** An observation is of a transfer whose transaction is not stored as final. */
  ghost predicate Clean(t: Tables)
  {
    forall o :: o in t.observations ==> t.observations[o].atoms > 0 && !TxStored(t.transfers, o.chain, o.tx)
  }

  /** After the items, exactly those are on view that were there or were sighted, and are not final. */
  ghost predicate OnView(t: Tables, u: Tables, id: InvoiceId, chain: ChainId, items: seq<Item>)
  {
    && (forall o :: o in u.observations <==>
          !TxStored(u.transfers, o.chain, o.tx) && (o in t.observations || exists it :: Sights(chain, items, o, it)))
    && (forall o :: o in u.observations ==>
          || (exists it :: Sights(chain, items, o, it) && u.observations[o] == Sighting(id, it))
          || ((forall it :: !Sights(chain, items, o, it)) && o in t.observations && u.observations[o] == t.observations[o]))
  }

  lemma {:induction false} ItemsOnView(t: Tables, id: InvoiceId, v: Invoice, chain: ChainId, items: seq<Item>)
    requires Clean(t) && ApplyItems(t, id, v, chain, items).Ok?
    ensures OnView(t, ApplyItems(t, id, v, chain, items).value, id, chain, items)
    decreases |items|
  {
    if items != [] {
      var front, it := items[..|items| - 1], items[|items| - 1];
      ItemsOnView(t, id, v, chain, front);
      var u := ApplyItems(t, id, v, chain, front).value;
      assert items == front + [it];
      forall o, ju ensures Sights(chain, items, o, ju) <==> Sights(chain, front, o, ju) || Sights(chain, [it], o, ju) {}
      if it.final || it.log.atoms == 0 {
        FinalOnView(t, u, id, v, chain, front, it);
      } else {
        TailOnView(t, u, id, v, chain, front, it);
      }
    }
  }

  lemma FinalOnView(t: Tables, u: Tables, id: InvoiceId, v: Invoice, chain: ChainId, front: seq<Item>, it: Item)
    requires OnView(t, u, id, chain, front) && ApplyItem(u, id, v, chain, it).Ok? && (it.final || it.log.atoms == 0)
    ensures OnView(t, ApplyItem(u, id, v, chain, it).value, id, chain, front + [it])
  {
    var w := ApplyItem(u, id, v, chain, it).value;
    forall o, ju ensures Sights(chain, front + [it], o, ju) <==> Sights(chain, front, o, ju) {}
    if it.log.atoms > 0 {
      var k := KeyOf(chain, it.log);
      assert w.transfers.Keys == u.transfers.Keys + {k};
      forall c, tx ensures TxStored(w.transfers, c, tx) <==> TxStored(u.transfers, c, tx) || (c == chain && tx == it.log.tx) {
        if c == chain && tx == it.log.tx { assert k in w.transfers; }
        if TxStored(u.transfers, c, tx) { var j :| j in u.transfers && j.chain == c && j.tx == tx; assert j in w.transfers; }
      }
    }
  }

  lemma TailOnView(t: Tables, u: Tables, id: InvoiceId, v: Invoice, chain: ChainId, front: seq<Item>, it: Item)
    requires OnView(t, u, id, chain, front) && ApplyItem(u, id, v, chain, it).Ok? && !it.final && it.log.atoms > 0
    ensures OnView(t, ApplyItem(u, id, v, chain, it).value, id, chain, front + [it])
  {
    var w := ApplyItem(u, id, v, chain, it).value;
    var q := ObservationKey(chain, it.log.tx, it.hash, it.log.index);
    assert w.transfers == u.transfers;
    forall o, ju ensures Sights(chain, front + [it], o, ju) <==> Sights(chain, front, o, ju) || (o == q && ju == it) {}
    assert Sights(chain, front + [it], q, it);
    assert TxStored(u.transfers, chain, it.log.tx) ==> w == u;
  }

  // ------------------------------------------------------------------ over runs

  ghost predicate Sound(s: Sys) { Inv(s) && Agreed(s) && Clean(Tables(s.db.transfers, s.db.observations)) }

  /** The scan begins at its cursor, on a network that is not frozen. */
  ghost predicate Ready(s: Sys, w: Scan)
  {
    && Honest(s, w) && w.chain !in s.db.frozen
    && CursorKey(w.invoice, w.chain) in s.db.cursors && s.db.cursors[CursorKey(w.invoice, w.chain)].next == w.from
  }

  lemma OnViewIsClean(t: Tables, u: Tables, id: InvoiceId, chain: ChainId, items: seq<Item>)
    requires Clean(t) && OnView(t, u, id, chain, items)
    ensures Clean(u)
  {
  }

  lemma MiddleIsClean(s: Sys, t: Sys, w: Scan)
    requires Clean(Tables(s.db.transfers, s.db.observations)) && w.invoice in s.db.invoices
    requires ApplyItems(Tables(s.db.transfers, Unswept(s.db.observations, w)), w.invoice, s.db.invoices[w.invoice], w.chain, w.items)
               == Ok(Tables(t.db.transfers, t.db.observations))
    ensures OnView(Tables(s.db.transfers, Unswept(s.db.observations, w)), Tables(t.db.transfers, t.db.observations), w.invoice, w.chain, w.items)
    ensures Clean(Tables(t.db.transfers, t.db.observations))
  {
    var u := Tables(s.db.transfers, Unswept(s.db.observations, w));
    ItemsOnView(u, w.invoice, s.db.invoices[w.invoice], w.chain, w.items);
    OnViewIsClean(u, Tables(t.db.transfers, t.db.observations), w.invoice, w.chain, w.items);
  }

  /** The rows of a scan, before settlement. */
  lemma Middle(s: Sys, w: Scan) returns (t: Sys)
    requires Sound(s) && Ready(s, w)
    ensures Scanned(s, t, w) && Unsettled(t, w.invoice) && Agreed(t) && Clean(Tables(t.db.transfers, t.db.observations))
    ensures Settle(t.db, w.invoice, DeadlineFinal(s.db.invoices[w.invoice], w)).Ok?
    ensures ApplyScan(s.db, w) == Settle(t.db, w.invoice, DeadlineFinal(s.db.invoices[w.invoice], w))
    ensures OnView(Tables(s.db.transfers, Unswept(s.db.observations, w)), Tables(t.db.transfers, t.db.observations), w.invoice, w.chain, w.items)
  {
    t := HonestScanCommits(s, w);
    MiddleIsClean(s, t, w);
    SameFits(s, t);
  }

  lemma SettledTables(s: Sys, t: Sys, w: Scan)
    requires w.invoice in s.db.invoices && Scanned(s, t, w) && ApplyScan(s.db, w).Ok?
    requires ApplyScan(s.db, w) == Settle(t.db, w.invoice, DeadlineFinal(s.db.invoices[w.invoice], w))
    ensures Step(s, Apply(w)).db == ApplyScan(s.db, w).value
    ensures Step(s, Apply(w)).db.transfers == t.db.transfers && Step(s, Apply(w)).db.observations == t.db.observations
    ensures Step(s, Apply(w)).db.cursors == t.db.cursors
  {
    var how := ScanStepDoes(s, t, w);
  }

  lemma OtherStepsKeepTables(s: Sys, e: Event)
    requires !e.Apply?
    ensures Step(s, e).db.transfers == s.db.transfers && Step(s, e).db.observations == s.db.observations
  {
  }

  lemma IdleScanKeepsTables(s: Sys, w: Scan)
    requires w.chain in s.db.frozen || CursorKey(w.invoice, w.chain) !in s.db.cursors || s.db.cursors[CursorKey(w.invoice, w.chain)].next != w.from
    ensures Step(s, Apply(w)).db.transfers == s.db.transfers && Step(s, Apply(w)).db.observations == s.db.observations
  {
  }

  lemma StepKeepsClean(s: Sys, e: Event)
    requires Sound(s) && Allowed(s, e)
    ensures Clean(Tables(Step(s, e).db.transfers, Step(s, e).db.observations))
  {
    if !e.Apply? {
      OtherStepsKeepTables(s, e);
    } else if Ready(s, e.scan) {
      var t := Middle(s, e.scan);
      SettledTables(s, t, e.scan);
    } else {
      IdleScanKeepsTables(s, e.scan);
    }
  }

  lemma {:induction false} RunIsSound(s: Sys, es: seq<Event>, t: Sys)
    requires Sound(s) && Reaches(s, es, t)
    ensures Sound(t)
    decreases |es|
  {
    if es != [] {
      StepKeepsInv(s, es[0]);
      StepFits(s, es[0]);
      StepKeepsClean(s, es[0]);
      RunIsSound(Step(s, es[0]), es[1..], t);
    }
  }

  // ------------------------------------------------------------------ what settlement compares

  lemma {:induction false} InTimeSame(s: Sys, t: Sys, i: InvoiceId, n: nat, limit: nat)
    requires i in s.db.invoices && s.db.invoices[i].chain in s.chains && n <= |s.chains[s.db.invoices[i].chain].logs|
    requires i in t.db.invoices && t.db.invoices[i] == s.db.invoices[i] && t.chains == s.chains
    ensures InTimeBelow(t, i, n, limit) == InTimeBelow(s, i, n, limit)
  {
    if n > 0 { InTimeSame(s, t, i, n - 1, limit); }
  }

  /** What the final blocks below `limit` paid to invoice `i` in time. */
  ghost function Gathered(s: Sys, i: InvoiceId, limit: nat): nat
    requires i in s.db.invoices && s.db.invoices[i].chain in s.chains
  {
    InTimeBelow(s, i, |s.chains[s.db.invoices[i].chain].logs|, limit)
  }

  lemma GatheredByScan(s: Sys, t: Sys, w: Scan)
    requires Books(s) && Honest(s, w) && Scanned(s, t, w) && w.chain == s.db.invoices[w.invoice].chain
    ensures ConfirmedAtoms(t.db, w.invoice) == Gathered(s, w.invoice, w.next)
  {
    ScannedBooks(s, t, w);
    ConfirmedIsInTime(t, w.invoice);
    InTimeSame(s, t, w.invoice, |s.chains[w.chain].logs|, w.next);
  }

  ghost predicate AnyStored(db: Db, i: InvoiceId) { exists k :: k in db.transfers && db.transfers[k].invoice == i }

  /** A transfer or a sighting in the invoice's own token. */
  ghost predicate AnyOwn(db: Db, i: InvoiceId)
    requires i in db.invoices
  {
    || (exists k :: k in db.transfers && OwnRow(db, i, k))
    || (exists o :: o in db.observations && OwnSighting(db, i, o))
  }

  predicate OwnRow(db: Db, i: InvoiceId, k: TransferKey)
    requires i in db.invoices && k in db.transfers
  {
    db.transfers[k].invoice == i && k.chain == db.invoices[i].chain && db.transfers[k].contract == db.invoices[i].contract
  }

  predicate OwnSighting(db: Db, i: InvoiceId, o: ObservationKey)
    requires i in db.invoices && o in db.observations
  {
    db.observations[o].invoice == i && o.chain == db.invoices[i].chain && db.observations[o].contract == db.invoices[i].contract
  }

  lemma StoredIsPositive(s: Sys, k: TransferKey)
    requires RowsSound(s) && k in s.db.transfers
    ensures s.db.transfers[k].atoms > 0 && s.db.transfers[k].invoice in s.db.invoices
    ensures var v := s.db.invoices[s.db.transfers[k].invoice];
            s.db.transfers[k].state == Confirmed ==> k.chain == v.chain && s.db.transfers[k].contract == v.contract && s.db.transfers[k].time < v.expires
  {
    var a :| Backs(s, k, a);
  }

  /** Something counts or is to be reviewed exactly when something is stored. */
  lemma StoredShows(s: Sys, i: InvoiceId)
    requires RowsSound(s) && i in s.db.invoices
    ensures ConfirmedAtoms(s.db, i) > 0 || UnderReview(s.db, i) <==> AnyStored(s.db, i)
  {
    ConfirmedIsSum(s.db, i);
    if AnyStored(s.db, i) && !UnderReview(s.db, i) {
      var k :| k in s.db.transfers && s.db.transfers[k].invoice == i;
      StoredIsPositive(s, k);
      SumAtLeast(ConfirmedKeys(s.db, i), AtomsOf(s.db), k);
    }
    if ConfirmedAtoms(s.db, i) > 0 {
      assert ConfirmedKeys(s.db, i) != {};
      var k :| k in ConfirmedKeys(s.db, i);
    }
  }

  ghost function SightedAtoms(db: Db): ObservationKey -> int
  {
    o => if o in db.observations then db.observations[o].atoms else 0
  }

  lemma ReceivedIsSum(db: Db, i: InvoiceId)
    requires i in db.invoices
    ensures ReceivedAtoms(db, i) == Sum(ReceivedKeys(db, i), AtomsOf(db)) + Sum(ObservedKeys(db, i), SightedAtoms(db))
  {
    SumCongruence(ReceivedKeys(db, i), AtomsOf(db), k => if k in db.transfers then db.transfers[k].atoms else 0);
    SumCongruence(ObservedKeys(db, i), SightedAtoms(db), k => if k in db.observations then db.observations[k].atoms else 0);
  }

  lemma ReceivedShows(s: Sys, i: InvoiceId)
    requires RowsSound(s) && i in s.db.invoices && Clean(Tables(s.db.transfers, s.db.observations))
    ensures ReceivedAtoms(s.db, i) != 0 <==> AnyOwn(s.db, i)
    ensures ConfirmedAtoms(s.db, i) > 0 ==> AnyOwn(s.db, i)
  {
    var db := s.db;
    ReceivedIsSum(db, i);
    ConfirmedIsSum(db, i);
    SumNonNegative(ReceivedKeys(db, i), AtomsOf(db));
    SumNonNegative(ObservedKeys(db, i), SightedAtoms(db));
    if k :| k in db.transfers && OwnRow(db, i, k) {
      StoredIsPositive(s, k);
      SumAtLeast(ReceivedKeys(db, i), AtomsOf(db), k);
    } else if o :| o in db.observations && OwnSighting(db, i, o) {
      SumAtLeast(ObservedKeys(db, i), SightedAtoms(db), o);
    } else {
      assert ReceivedKeys(db, i) == {} && ObservedKeys(db, i) == {};
    }
    if ConfirmedAtoms(db, i) > 0 {
      assert ConfirmedKeys(db, i) != {};
      var k :| k in ConfirmedKeys(db, i);
      assert OwnRow(db, i, k);
    }
  }

  // ------------------------------------------------------------------ settlement, case by case

  /** The order of invoice `i` is pending and waits for it, and it is not paid. */
  ghost predicate Awaited(db: Db, i: InvoiceId)
    requires i in db.invoices && db.invoices[i].order in db.orders
  {
    db.orders[db.invoices[i].order] == Order(Pending, Some(i)) && db.invoices[i].state != Paid
  }

  /** Money came that its order does not wait for, or that is late or of another kind. */
  ghost predicate Questionable(db: Db, i: InvoiceId)
    requires i in db.invoices && db.invoices[i].order in db.orders
  {
    || UnderReview(db, i)
    || (db.orders[db.invoices[i].order] != Order(Pending, Some(i)) && AnyOwn(db, i))
  }

  /** `eb` is `db` with invoice `i` paid, lapsed or only marked. */
  ghost predicate Concluded(db: Db, eb: Db, i: InvoiceId, pays: bool, lapses: bool)
    requires i in db.invoices && db.invoices[i].order in db.orders
  {
    var v := db.invoices[i];
    var o := v.order;
    var state := if pays then Paid
                 else if lapses then if AnyStored(db, i) then ReviewRequired else Expired
                 else if v.state != Paid && Questionable(db, i) then ReviewRequired
                 else v.state;
    var attempt := if pays then AttemptPaid else if lapses then AttemptExpired else v.attempt;
    eb == db.(receipts := if pays then db.receipts + [Receipt(i, o)] else db.receipts,
              orders := if lapses then db.orders[o := Order(OrderExpired, Some(i))] else db.orders,
              invoices := db.invoices[i := v.(state := state, attempt := attempt)])
  }

  /** What is known of an invoice before settlement. */
  ghost predicate Ripe(db: Db, i: InvoiceId)
  {
    && i in db.invoices && db.invoices[i].order in db.orders
    && (db.orders[db.invoices[i].order] == Order(Pending, Some(i)) ==> AttemptFits(Pending, db.invoices[i]))
    && (ConfirmedAtoms(db, i) > 0 || UnderReview(db, i) <==> AnyStored(db, i))
    && (ReceivedAtoms(db, i) != 0 <==> AnyOwn(db, i))
    && (ConfirmedAtoms(db, i) > 0 ==> AnyOwn(db, i))
  }

  lemma SettlePays(db: Db, i: InvoiceId, deadline: bool)
    requires Ripe(db, i) && Settle(db, i, deadline).Ok? && Awaited(db, i) && ConfirmedAtoms(db, i) >= db.invoices[i].expected
    ensures Concluded(db, Settle(db, i, deadline).value, i, true, false)
  {
  }

  lemma SettleLapses(db: Db, i: InvoiceId)
    requires Ripe(db, i) && Settle(db, i, true).Ok? && Awaited(db, i) && ConfirmedAtoms(db, i) < db.invoices[i].expected
    ensures Concluded(db, Settle(db, i, true).value, i, false, true)
  {
  }

  lemma SettleMarks(db: Db, i: InvoiceId, deadline: bool)
    requires Ripe(db, i) && Settle(db, i, deadline).Ok?
    requires Awaited(db, i) ==> !deadline && ConfirmedAtoms(db, i) < db.invoices[i].expected
    ensures Concluded(db, Settle(db, i, deadline).value, i, false, false)
  {
  }

  lemma SettleConcludes(t: Sys, i: InvoiceId, deadline: bool)
    requires Unsettled(t, i) && Agreed(t) && Clean(Tables(t.db.transfers, t.db.observations))
    requires Settle(t.db, i, deadline).Ok? && t.db.invoices[i].order in t.db.orders
    ensures var short := ConfirmedAtoms(t.db, i) < t.db.invoices[i].expected;
            Concluded(t.db, Settle(t.db, i, deadline).value, i, Awaited(t.db, i) && !short, Awaited(t.db, i) && short && deadline)
  {
    assert Fits(t, i);
    StoredShows(t, i);
    ReceivedShows(t, i);
    if !Awaited(t.db, i) {
      SettleMarks(t.db, i, deadline);
    } else if ConfirmedAtoms(t.db, i) >= t.db.invoices[i].expected {
      SettlePays(t.db, i, deadline);
    } else if deadline {
      SettleLapses(t.db, i);
    } else {
      SettleMarks(t.db, i, deadline);
    }
  }

  /** The window reaches past the head it was read at, and that head is later than the deadline. */
  predicate Overdue(s: Sys, w: Scan)
    requires w.invoice in s.db.invoices
  {
    w.chain == s.db.invoices[w.invoice].chain && w.next > w.finalNumber && w.finalTime > s.db.invoices[w.invoice].expires
  }

  /** The amount that settlement compares with the price. */
  lemma ShortOnOtherNetwork(s: Sys, t: Sys, w: Scan)
    requires Sound(s) && Honest(s, w) && Scanned(s, t, w) && w.chain != s.db.invoices[w.invoice].chain
    requires s.db.invoices[w.invoice].order in s.db.orders && Awaited(s.db, w.invoice)
    ensures ConfirmedAtoms(t.db, w.invoice) < t.db.invoices[w.invoice].expected
  {
    assert Fits(s, w.invoice);
    assert Open(s.db, w.invoice);
    ScannedConfirmed(s, t, w, w.invoice);
  }

  /** The database of `s` with the rows and cursors of `u`. */
  function WithRows(s: Sys, u: Sys): Db
  {
    s.db.(transfers := u.db.transfers, observations := u.db.observations, cursors := u.db.cursors)
  }

  /** By the blocks below the window's end, the scanned invoice is covered. */
  ghost predicate CoveredBy(s: Sys, w: Scan)
    requires w.invoice in s.db.invoices
  {
    w.chain == s.db.invoices[w.invoice].chain && w.chain in s.chains && Gathered(s, w.invoice, w.next) >= s.db.invoices[w.invoice].expected
  }

  lemma Compared(s: Sys, t: Sys, w: Scan)
    requires Sound(s) && Honest(s, w) && Scanned(s, t, w)
    requires s.db.invoices[w.invoice].order in s.db.orders && Awaited(s.db, w.invoice)
    ensures ConfirmedAtoms(t.db, w.invoice) < t.db.invoices[w.invoice].expected <==> !CoveredBy(s, w)
  {
    if w.chain == s.db.invoices[w.invoice].chain {
      GatheredByScan(s, t, w);
    } else {
      ShortOnOtherNetwork(s, t, w);
    }
  }

  lemma ScanConcludes(s: Sys, w: Scan)
    requires Sound(s) && Ready(s, w)
    ensures s.db.invoices[w.invoice].order in s.db.orders
    ensures var u := Step(s, Apply(w));
            Concluded(WithRows(s, u), u.db, w.invoice, Awaited(s.db, w.invoice) && CoveredBy(s, w),
                      Awaited(s.db, w.invoice) && Overdue(s, w) && !CoveredBy(s, w))
  {
    var t := Middle(s, w);
    SettledTables(s, t, w);
    SettleConcludes(t, w.invoice, DeadlineFinal(s.db.invoices[w.invoice], w));
    if Awaited(s.db, w.invoice) { Compared(s, t, w); }
    SameConclusion(s, t, Step(s, Apply(w)), w, ConfirmedAtoms(t.db, w.invoice) < t.db.invoices[w.invoice].expected);
  }

  lemma SameConclusion(s: Sys, t: Sys, u: Sys, w: Scan, short: bool)
    requires w.invoice in s.db.invoices && s.db.invoices[w.invoice].order in s.db.orders
    requires Scanned(s, t, w) && (Awaited(s.db, w.invoice) ==> (short <==> !CoveredBy(s, w)))
    requires Concluded(t.db, u.db, w.invoice, Awaited(t.db, w.invoice) && !short,
                       Awaited(t.db, w.invoice) && short && DeadlineFinal(s.db.invoices[w.invoice], w))
    ensures Concluded(WithRows(s, u), u.db, w.invoice, Awaited(s.db, w.invoice) && CoveredBy(s, w),
                      Awaited(s.db, w.invoice) && Overdue(s, w) && !CoveredBy(s, w))
  {
    assert WithRows(s, u) == t.db;
  }

  // ------------------------------------------------------------------ theorems

  lemma ReachableIsSound(s: Sys, es: seq<Event>, t: Sys)
    requires Init(s) && Reaches(s, es, t)
    ensures Sound(t)
  {
    InitIsInv(s);
    RunIsSound(s, es, t);
  }

  /** What a committed scan does to a reachable state, whole: it pays the invoice if and only if its order
      waits for it and the final blocks below the window's end hold the price, paid in time; it expires
      the order if and only if they do not, and the window reaches past a head later than the deadline;
      otherwise it only marks money that is late, of another kind or not waited for. */
  lemma ScanOutcome(s: Sys, es: seq<Event>, t: Sys, w: Scan)
    requires Init(s) && Reaches(s, es, t) && Ready(t, w)
    ensures t.db.invoices[w.invoice].order in t.db.orders
    ensures var u := Step(t, Apply(w));
            Concluded(WithRows(t, u), u.db, w.invoice, Awaited(t.db, w.invoice) && CoveredBy(t, w),
                      Awaited(t.db, w.invoice) && Overdue(t, w) && !CoveredBy(t, w))
  {
    ReachableIsSound(s, es, t);
    ScanConcludes(t, w);
  }

  /** The same for a pending order whose window has passed its deadline: it does not stay pending unless the
      scan paid it, and it expires exactly if it is short, with its attempt, and its invoice is kept for
      review exactly if any transfer to its address is stored. */
  lemma OverdueIsClosed(s: Sys, es: seq<Event>, t: Sys, w: Scan, o: OrderId)
    requires Init(s) && Reaches(s, es, t) && Ready(t, w)
    requires o in t.db.orders && t.db.orders[o] == Order(Pending, Some(w.invoice)) && t.db.invoices[w.invoice].state != Paid
    requires w.chain == t.db.invoices[w.invoice].chain && w.next > w.finalNumber && w.finalTime > t.db.invoices[w.invoice].expires
    ensures var i, u := w.invoice, Step(t, Apply(w));
            if Gathered(t, i, w.next) < t.db.invoices[i].expected
            then u.db.orders[o] == Order(OrderExpired, Some(i)) && u.db.invoices[i].attempt == AttemptExpired
                 && u.db.invoices[i].state == (if AnyStored(u.db, i) then ReviewRequired else Expired)
            else u.db.orders[o] == Order(Pending, Some(i)) && u.db.invoices[i].attempt == AttemptPaid
                 && u.db.invoices[i].state == Paid && Receipt(i, o) in u.db.receipts
  {
    ReachableIsSound(s, es, t);
    ScanConcludes(t, w);
    assert t.db.invoices[w.invoice].order == o;
    var u := Step(t, Apply(w));
    assert AnyStored(WithRows(t, u), w.invoice) <==> AnyStored(u.db, w.invoice);
    assert CoveredBy(t, w) <==> Gathered(t, w.invoice, w.next) >= t.db.invoices[w.invoice].expected;
  }

  /** An old observation of another invoice, of another network or outside the window. */
  predicate Remains(db: Db, w: Scan, o: ObservationKey)
  {
    o in db.observations &&
    (db.observations[o].invoice != w.invoice || o.chain != w.chain || db.observations[o].block < w.from || db.observations[o].block > w.to)
  }

  ghost predicate Viewed(s: Sys, u: Sys, w: Scan)
    requires CursorKey(w.invoice, w.chain) in s.db.cursors
  {
    var ck := CursorKey(w.invoice, w.chain);
    && u.db.cursors == s.db.cursors[ck := s.db.cursors[ck].(next := w.next, hash := w.hash)]
    && (forall o :: o in u.db.observations <==>
          !TxStored(u.db.transfers, o.chain, o.tx) && (Remains(s.db, w, o) || exists it :: Sights(w.chain, w.items, o, it)))
    && (forall o :: o in u.db.observations ==>
          || (exists it :: Sights(w.chain, w.items, o, it) && u.db.observations[o] == Sighting(w.invoice, it))
          || ((forall it :: !Sights(w.chain, w.items, o, it)) && Remains(s.db, w, o) && u.db.observations[o] == s.db.observations[o]))
  }

  lemma MiddleViewed(s: Sys, t: Sys, w: Scan)
    requires CursorKey(w.invoice, w.chain) in s.db.cursors && Scanned(s, t, w)
    requires OnView(Tables(s.db.transfers, Unswept(s.db.observations, w)), Tables(t.db.transfers, t.db.observations), w.invoice, w.chain, w.items)
    ensures Viewed(s, t, w)
  {
  }

  lemma SameViewed(s: Sys, t: Sys, u: Sys, w: Scan)
    requires CursorKey(w.invoice, w.chain) in s.db.cursors && Viewed(s, t, w)
    requires u.db.transfers == t.db.transfers && u.db.observations == t.db.observations && u.db.cursors == t.db.cursors
    ensures Viewed(s, u, w)
  {
  }

  lemma ScanShows(s: Sys, w: Scan)
    requires Sound(s) && Ready(s, w)
    ensures Viewed(s, Step(s, Apply(w)), w)
  {
    var t := Middle(s, w);
    SettledTables(s, t, w);
    MiddleViewed(s, t, w);
    SameViewed(s, t, Step(s, Apply(w)), w);
  }

  /** Which unfinalized transfers stay on view after a committed scan, and where the cursor stands. */
  lemma ScanViews(s: Sys, es: seq<Event>, t: Sys, w: Scan)
    requires Init(s) && Reaches(s, es, t) && Ready(t, w)
    ensures Viewed(t, Step(t, Apply(w)), w)
  {
    ReachableIsSound(s, es, t);
    ScanShows(t, w);
  }

  // ------------------------------------------------------------------ the finality alarm

  /** A final log that contradicts a stored transfer: another amount, another block or another invoice. */
  predicate Contradicts(rows: map<TransferKey, Transfer>, id: InvoiceId, chain: ChainId, it: Item)
  {
    && it.final && it.log.atoms > 0 && KeyOf(chain, it.log) in rows
    && (var r := rows[KeyOf(chain, it.log)]; r.invoice != id || r.atoms != it.log.atoms || r.hash != it.hash)
  }

  lemma {:induction false} ContradictionFound(t: Tables, id: InvoiceId, v: Invoice, chain: ChainId, items: seq<Item>, n: nat)
    requires n < |items| && Contradicts(t.transfers, id, chain, items[n])
    requires forall it :: it in items ==> it.log.to == v.address
    ensures ApplyItems(t, id, v, chain, items) == Err(Finality)
    decreases |items|
  {
    var front := items[..|items| - 1];
    if n < |front| {
      assert front[n] == items[n];
      ContradictionFound(t, id, v, chain, front, n);
    } else {
      RowsPersist(t, id, v, chain, front, KeyOf(chain, items[n].log));
    }
  }

  /** Nothing rewrites what a stored row says it is; the only failure of the loop is a contradiction. */
  lemma {:induction false} RowsPersist(t: Tables, id: InvoiceId, v: Invoice, chain: ChainId, items: seq<Item>, k: TransferKey)
    requires k in t.transfers && forall it :: it in items ==> it.log.to == v.address
    ensures match ApplyItems(t, id, v, chain, items)
            case Ok(u) => k in u.transfers && u.transfers[k].invoice == t.transfers[k].invoice && u.transfers[k].atoms == t.transfers[k].atoms
                          && u.transfers[k].hash == t.transfers[k].hash
            case Err(e) => e == Finality
    decreases |items|
  {
    if items != [] {
      RowsPersist(t, id, v, chain, items[..|items| - 1], k);
    }
  }

  /** Whatever a node reports: final logs that contradict a stored transfer freeze the network, and change
      nothing else. */
  lemma ContradictionFreezes(s: Sys, w: Scan, n: nat)
    requires w.invoice in s.db.invoices && w.chain !in s.db.frozen
    requires CursorKey(w.invoice, w.chain) in s.db.cursors && s.db.cursors[CursorKey(w.invoice, w.chain)].next == w.from
    requires forall it :: it in w.items ==> it.log.to == s.db.invoices[w.invoice].address
    requires n < |w.items| && Contradicts(s.db.transfers, w.invoice, w.chain, w.items[n])
    ensures Step(s, Apply(w)) == s.(db := s.db.(frozen := s.db.frozen + {w.chain}))
  {
    ContradictionFound(Tables(s.db.transfers, Unswept(s.db.observations, w)), w.invoice, s.db.invoices[w.invoice], w.chain, w.items, n);
  }
}
