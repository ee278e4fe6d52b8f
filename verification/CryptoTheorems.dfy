/** What the invariants mean for payers and operators, over every run. */
module CryptoTheorems {
  import opened Common
  import opened Sums
  import opened CryptoModel
  import opened CryptoSafety
  import opened CryptoScans

  // ------------------------------------------- the rows are the chain, each log once

  /** The rows of `ck` and the logs its cursor has passed are in one-to-one correspondence. */
  ghost predicate ExactRows(t: Sys, ck: CursorKey)
  {
    && (forall k :: k in t.db.transfers && t.db.transfers[k].invoice == ck.invoice && k.chain == ck.chain ==> exists a :: Backs(t, k, a))
    && (forall a: nat :: Passed(t, ck, a) ==> PassedKey(t, ck, a) in t.db.transfers && t.db.transfers[PassedKey(t, ck, a)] == PassedRow(t, ck, a))
    && (forall a: nat, b: nat :: Passed(t, ck, a) && Passed(t, ck, b) && PassedKey(t, ck, a) == PassedKey(t, ck, b) ==> a == b)
  }

  lemma BooksAreExact(t: Sys, ck: CursorKey)
    requires ChainsFine(t) && RowsSound(t) && RowsComplete(t)
    ensures ExactRows(t, ck)
  {
  }

  /** The stored transfers of an invoice on a chain are exactly the matching non-zero logs of the
      final blocks from its start to its cursor, each once, and no observation lies below the cursor. */
  lemma StoredTransfersAreExact(s: Sys, es: seq<Event>, t: Sys, ck: CursorKey)
    requires Init(s) && Reaches(s, es, t)
    ensures ExactRows(t, ck)
    ensures forall o :: o in t.db.observations && CursorKey(t.db.observations[o].invoice, o.chain) == ck ==>
              ck in t.db.cursors && t.db.cursors[ck].next <= t.db.observations[o].block
  {
    InitIsInv(s);
    RunKeepsInv(s, es, t);
    BooksAreExact(t, ck);
  }

  // -------------------------------------------------- payments that arrived in time

  /** Log `a` of the invoice's own chain pays it, from its start block on and inside its window. */
  ghost predicate InTime(s: Sys, i: InvoiceId, a: nat)
    requires i in s.db.invoices && s.db.invoices[i].chain in s.chains
  {
    var v, ch := s.db.invoices[i], s.chains[s.db.invoices[i].chain];
    && a < |ch.logs| && ch.logs[a].block < |ch.heads|
    && ch.logs[a].to == v.address && ch.logs[a].contract == v.contract
    && v.startBlock <= ch.logs[a].block
    && v.created <= ch.heads[ch.logs[a].block].time < v.expires
  }

  /** The atoms paid in time by the first `n` logs, in blocks below `limit`. */
  ghost function InTimeBelow(s: Sys, i: InvoiceId, n: nat, limit: nat): nat
    requires i in s.db.invoices && s.db.invoices[i].chain in s.chains
    requires n <= |s.chains[s.db.invoices[i].chain].logs|
  {
    if n == 0 then 0
    else
      var l := s.chains[s.db.invoices[i].chain].logs[n - 1];
      InTimeBelow(s, i, n - 1, limit) + if InTime(s, i, n - 1) && l.block < limit then l.atoms else 0
  }

  /** The atoms paid in time by the whole final chain. */
  ghost function InTimeAtoms(s: Sys, i: InvoiceId): nat
    requires i in s.db.invoices && s.db.invoices[i].chain in s.chains
  {
    InTimeBelow(s, i, |s.chains[s.db.invoices[i].chain].logs|, |s.chains[s.db.invoices[i].chain].heads|)
  }

  ghost predicate Counts(s: Sys, i: InvoiceId, limit: nat, a: nat)
    requires i in s.db.invoices && s.db.invoices[i].chain in s.chains
  {
    InTime(s, i, a) && s.chains[s.db.invoices[i].chain].logs[a].block < limit && s.chains[s.db.invoices[i].chain].logs[a].atoms > 0
  }

  ghost function KeysBelow(s: Sys, i: InvoiceId, n: nat, limit: nat): set<TransferKey>
    requires i in s.db.invoices && s.db.invoices[i].chain in s.chains
    requires n <= |s.chains[s.db.invoices[i].chain].logs|
  {
    set a | 0 <= a < n && Counts(s, i, limit, a) :: KeyOf(s.db.invoices[i].chain, s.chains[s.db.invoices[i].chain].logs[a])
  }

  lemma OneMoreKey(s: Sys, i: InvoiceId, n: nat, limit: nat)
    requires ChainsFine(s) && i in s.db.invoices && s.db.invoices[i].chain in s.chains
    requires 0 < n <= |s.chains[s.db.invoices[i].chain].logs|
    ensures var k := KeyOf(s.db.invoices[i].chain, s.chains[s.db.invoices[i].chain].logs[n - 1]);
            if Counts(s, i, limit, n - 1)
            then k !in KeysBelow(s, i, n - 1, limit) && KeysBelow(s, i, n, limit) == KeysBelow(s, i, n - 1, limit) + {k}
            else KeysBelow(s, i, n, limit) == KeysBelow(s, i, n - 1, limit)
  {
    assert WellFormed(s.chains[s.db.invoices[i].chain]);
  }

  lemma CountedIsStored(s: Sys, i: InvoiceId, a: nat)
    requires CursorsFine(s) && InvoicesFine(s) && RowsComplete(s) && i in s.db.invoices && s.db.invoices[i].chain in s.chains
    requires CursorKey(i, s.db.invoices[i].chain) in s.db.cursors
    requires Counts(s, i, s.db.cursors[CursorKey(i, s.db.invoices[i].chain)].next, a)
    ensures AtomsOf(s.db)(KeyOf(s.db.invoices[i].chain, s.chains[s.db.invoices[i].chain].logs[a]))
              == s.chains[s.db.invoices[i].chain].logs[a].atoms
  {
    var ck := CursorKey(i, s.db.invoices[i].chain);
    assert CursorFine(s, ck);
    assert Passed(s, ck, a);
    assert PassedKey(s, ck, a) in s.db.transfers;
  }

  /** One more log adds its atoms to the sum, or nothing. */
  lemma SumOneMore(s: Sys, i: InvoiceId, n: nat, limit: nat)
    requires Books(s) && i in s.db.invoices && CursorKey(i, s.db.invoices[i].chain) in s.db.cursors
    requires limit == s.db.cursors[CursorKey(i, s.db.invoices[i].chain)].next
    requires s.db.invoices[i].chain in s.chains && 0 < n <= |s.chains[s.db.invoices[i].chain].logs|
    ensures Sum(KeysBelow(s, i, n, limit), AtomsOf(s.db)) == Sum(KeysBelow(s, i, n - 1, limit), AtomsOf(s.db))
              + if Counts(s, i, limit, n - 1) then s.chains[s.db.invoices[i].chain].logs[n - 1].atoms else 0
  {
    OneMoreKey(s, i, n, limit);
    if Counts(s, i, limit, n - 1) {
      CountedIsStored(s, i, n - 1);
      SumInsert(KeysBelow(s, i, n - 1, limit), AtomsOf(s.db), KeyOf(s.db.invoices[i].chain, s.chains[s.db.invoices[i].chain].logs[n - 1]));
    }
  }

  lemma {:induction false} SumOfKeysBelow(s: Sys, i: InvoiceId, n: nat, limit: nat)
    requires Books(s) && i in s.db.invoices && CursorKey(i, s.db.invoices[i].chain) in s.db.cursors
    requires s.db.invoices[i].chain in s.chains && n <= |s.chains[s.db.invoices[i].chain].logs|
    requires limit == s.db.cursors[CursorKey(i, s.db.invoices[i].chain)].next
    ensures Sum(KeysBelow(s, i, n, limit), AtomsOf(s.db)) == InTimeBelow(s, i, n, limit)
    decreases n
  {
    if n > 0 {
      SumOfKeysBelow(s, i, n - 1, limit);
      SumOneMore(s, i, n, limit);
    } else {
      assert KeysBelow(s, i, 0, limit) == {};
    }
  }

  lemma ConfirmedKeysAre(s: Sys, i: InvoiceId)
    requires Books(s) && i in s.db.invoices && CursorKey(i, s.db.invoices[i].chain) in s.db.cursors
    requires s.db.invoices[i].chain in s.chains
    ensures ConfirmedKeys(s.db, i) ==
              KeysBelow(s, i, |s.chains[s.db.invoices[i].chain].logs|, s.db.cursors[CursorKey(i, s.db.invoices[i].chain)].next)
  {
    var v := s.db.invoices[i];
    var ck := CursorKey(i, v.chain);
    var limit := s.db.cursors[ck].next;
    var ch := s.chains[v.chain];
    assert CursorFine(s, ck);
    forall k | k in ConfirmedKeys(s.db, i) ensures k in KeysBelow(s, i, |ch.logs|, limit)
    {
      var a :| Backs(s, k, a);
      assert Counts(s, i, limit, a);
    }
    forall k | k in KeysBelow(s, i, |ch.logs|, limit) ensures k in ConfirmedKeys(s.db, i)
    {
      var a: nat :| a < |ch.logs| && Counts(s, i, limit, a) && KeyOf(v.chain, ch.logs[a]) == k;
      assert Passed(s, ck, a);
    }
  }

  /** The books' confirmed amount is what the scanned part of the chain paid in time. */
  lemma ConfirmedIsInTime(s: Sys, i: InvoiceId)
    requires Books(s) && i in s.db.invoices && CursorKey(i, s.db.invoices[i].chain) in s.db.cursors
    requires s.db.invoices[i].chain in s.chains
    ensures ConfirmedAtoms(s.db, i) ==
              InTimeBelow(s, i, |s.chains[s.db.invoices[i].chain].logs|, s.db.cursors[CursorKey(i, s.db.invoices[i].chain)].next)
  {
    ConfirmedIsSum(s.db, i);
    ConfirmedKeysAre(s, i);
    SumOfKeysBelow(s, i, |s.chains[s.db.invoices[i].chain].logs|, s.db.cursors[CursorKey(i, s.db.invoices[i].chain)].next);
  }

  lemma {:induction false} InTimeMonotone(s: Sys, i: InvoiceId, n: nat, low: nat, high: nat)
    requires i in s.db.invoices && s.db.invoices[i].chain in s.chains && n <= |s.chains[s.db.invoices[i].chain].logs|
    requires low <= high
    ensures InTimeBelow(s, i, n, low) <= InTimeBelow(s, i, n, high)
    ensures (forall a: nat :: InTime(s, i, a) ==> s.chains[s.db.invoices[i].chain].logs[a].block < low) ==>
              InTimeBelow(s, i, n, low) == InTimeBelow(s, i, n, high)
  {
    if n > 0 { InTimeMonotone(s, i, n - 1, low, high); }
  }

  lemma NoCursorNoRows(s: Sys, i: InvoiceId)
    requires Books(s) && i in s.db.invoices && CursorKey(i, s.db.invoices[i].chain) !in s.db.cursors
    ensures ConfirmedAtoms(s.db, i) == 0
  {
    assert ConfirmedKeys(s.db, i) == {};
  }

  /** An order that the scanner expired was short of its price in time, on the whole final chain:
      a payment complete in time is never expired, however often, late or concurrently it is scanned. */
  lemma ExpiredWasShort(s: Sys, es: seq<Event>, t: Sys, o: OrderId)
    requires Init(s) && Reaches(s, es, t)
    requires o in t.db.orders && t.db.orders[o].state == OrderExpired && t.db.orders[o].current.Some?
    ensures var i := t.db.orders[o].current.value;
            i in t.db.invoices && t.db.invoices[i].chain in t.chains && InTimeAtoms(t, i) < t.db.invoices[i].expected
  {
    InitIsInv(s);
    RunKeepsInv(s, es, t);
    var i := t.db.orders[o].current.value;
    var v := t.db.invoices[i];
    var ch, next := t.chains[v.chain], t.db.cursors[CursorKey(i, v.chain)].next;
    assert CursorFine(t, CursorKey(i, v.chain)) && WellFormed(ch);
    ConfirmedIsInTime(t, i);
    InTimeMonotone(t, i, |ch.logs|, next, |ch.heads|);
  }

  /** An order expires under an invoice that was not switched away only if the invoice was short of its
      price in time, or was dropped by a stale write: those are the two ways, and the order tells which. */
  lemma ExpiredShortOrDropped(s: Sys, es: seq<Event>, t: Sys, i: InvoiceId)
    requires Init(s) && Reaches(s, es, t) && i in t.db.invoices && t.db.invoices[i].attempt != AttemptCancelled
    requires t.db.invoices[i].order in t.db.orders && t.db.orders[t.db.invoices[i].order].state == OrderExpired
    ensures t.db.invoices[i].chain in t.chains || i in t.dropped
    ensures i in t.dropped <==> t.db.orders[t.db.invoices[i].order].current == None
    ensures i !in t.dropped ==> InTimeAtoms(t, i) < t.db.invoices[i].expected
  {
    InitIsInv(s);
    RunKeepsInv(s, es, t);
    assert Placed(t, i);
    if i !in t.dropped {
      ExpiredWasShort(s, es, t, t.db.invoices[i].order);
    }
  }

  /** An invoice is settled only if the final chain paid its price in time. */
  lemma ReceiptWasCovered(s: Sys, es: seq<Event>, t: Sys, r: Receipt)
    requires Init(s) && Reaches(s, es, t) && r in t.db.receipts
    ensures r.invoice in t.db.invoices && t.db.invoices[r.invoice].chain in t.chains
    ensures InTimeAtoms(t, r.invoice) >= t.db.invoices[r.invoice].expected
  {
    InitIsInv(s);
    RunKeepsInv(s, es, t);
    assert ReceiptFine(t, r);
    var v := t.db.invoices[r.invoice];
    if CursorKey(r.invoice, v.chain) !in t.db.cursors {
      NoCursorNoRows(t, r.invoice);
    } else {
      assert CursorFine(t, CursorKey(r.invoice, v.chain));
      ConfirmedIsInTime(t, r.invoice);
      InTimeMonotone(t, r.invoice, |t.chains[v.chain].logs|, t.db.cursors[CursorKey(r.invoice, v.chain)].next, |t.chains[v.chain].heads|);
    }
  }

  /** Settlement is never overdue: whatever an order still waits for has not been scanned in full. */
  lemma OpenIsShort(s: Sys, es: seq<Event>, t: Sys, i: InvoiceId)
    requires Init(s) && Reaches(s, es, t) && Open(t.db, i)
    requires CursorKey(i, t.db.invoices[i].chain) in t.db.cursors
    ensures t.db.invoices[i].chain in t.chains
    ensures InTimeBelow(t, i, |t.chains[t.db.invoices[i].chain].logs|, t.db.cursors[CursorKey(i, t.db.invoices[i].chain)].next)
              < t.db.invoices[i].expected
  {
    InitIsInv(s);
    RunKeepsInv(s, es, t);
    assert CursorFine(t, CursorKey(i, t.db.invoices[i].chain));
    ConfirmedIsInTime(t, i);
  }

  /** An order has at most one receipt. */
  lemma OneReceiptPerOrder(s: Sys, es: seq<Event>, t: Sys, a: nat, b: nat)
    requires Init(s) && Reaches(s, es, t) && a < b < |t.db.receipts|
    ensures t.db.receipts[a].order != t.db.receipts[b].order
  {
    InitIsInv(s);
    RunKeepsInv(s, es, t);
  }
}
