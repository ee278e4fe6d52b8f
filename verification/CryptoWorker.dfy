/** The payment worker as it runs: the block search, the window loop, the amounts loop and the
    scan transaction, each proved against the functions of CryptoModel. */
module CryptoWorker {
  import opened Common
  import opened Sums
  import opened CryptoModel

  /** cryptoBlockAtTime: the first block up to `head` that is not older than `timestamp`, or `head`. */
  method BlockAtTime(heads: seq<Head>, head: nat, timestamp: int) returns (lo: nat)
    requires head < |heads|
    requires forall i, j :: 0 <= i < j < |heads| ==> heads[i].time <= heads[j].time
    ensures lo <= head
    ensures forall b :: 0 <= b < lo ==> heads[b].time < (if timestamp < 0 then 0 else timestamp)
    ensures lo < head ==> heads[lo].time >= (if timestamp < 0 then 0 else timestamp)
  {
    var wanted := if timestamp < 0 then 0 else timestamp;
    var hi := head;
    lo := 0;
    while lo < hi
      invariant 0 <= lo <= hi <= head
      invariant forall b :: 0 <= b < lo ==> heads[b].time < wanted
      invariant hi < head ==> heads[hi].time >= wanted
    {
      var mid := lo + (hi - lo) / 2;
      if heads[mid].time < wanted {
        lo := mid + 1;
      } else {
        hi := mid;
      }
    }
  }

  predicate OfAsset(l: Log, contract: Contract, to: Address, from: nat, upto: nat)
  {
    l.contract == contract && l.to == to && from <= l.block <= upto
  }

  /** The transfer logs that a node returns for one contract, recipient and block range. */
  function LogsOf(logs: seq<Log>, contract: Contract, to: Address, from: nat, upto: nat): (r: seq<Log>)
    ensures forall l :: l in r <==> l in logs && OfAsset(l, contract, to, from, upto)
  {
    if logs == [] then []
    else
      var front := LogsOf(logs[..|logs| - 1], contract, to, from, upto);
      var l := logs[|logs| - 1];
      assert forall x :: x in logs <==> x in logs[..|logs| - 1] || x == l;
      if OfAsset(l, contract, to, from, upto) then front + [l] else front
  }

  ghost predicate ItemFits(s: Sys, id: InvoiceId, chain: ChainId, next: nat, upto: nat, finalNumber: nat, it: Item)
    requires id in s.db.invoices && chain in s.chains
  {
    var ch, v := s.chains[chain], s.db.invoices[id];
    && next <= it.log.block <= upto
    && it.log.to == v.address && Asset(chain, it.log.contract) in s.catalog
    && (it.final <==> it.log.block <= finalNumber)
    && (it.final ==> it.log in ch.logs && it.log.block < |ch.heads| && it == ItemAt(ch, it.log))
  }

  ghost predicate Window(s: Sys, id: InvoiceId, chain: ChainId, next: nat, upto: nat, finalNumber: nat, items: seq<Item>, contracts: seq<Contract>)
    requires id in s.db.invoices && chain in s.chains && finalNumber < |s.chains[chain].heads|
  {
    var ch, v := s.chains[chain], s.db.invoices[id];
    && (forall it :: it in items ==> ItemFits(s, id, chain, next, upto, finalNumber, it))
    && (forall l :: l in ch.logs && l.to == v.address && l.contract in contracts && next <= l.block <= Min(upto, finalNumber) && l.block < |ch.heads| ==>
          ItemAt(ch, l) in items)
  }

  lemma OneMoreFits(s: Sys, id: InvoiceId, chain: ChainId, next: nat, upto: nat, finalNumber: nat, items: seq<Item>, done: seq<Contract>, it: Item)
    requires id in s.db.invoices && chain in s.chains && finalNumber < |s.chains[chain].heads|
    requires Window(s, id, chain, next, upto, finalNumber, items, done) && ItemFits(s, id, chain, next, upto, finalNumber, it)
    ensures Window(s, id, chain, next, upto, finalNumber, items + [it], done)
  {
  }

  /** With the confirmed logs of one more contract, the window is complete for that contract too. */
  lemma AssetDone(s: Sys, id: InvoiceId, chain: ChainId, next: nat, upto: nat, finalNumber: nat, items: seq<Item>, done: seq<Contract>,
                  contract: Contract, final: seq<Log>)
    requires id in s.db.invoices && chain in s.chains && finalNumber < |s.chains[chain].heads|
    requires Window(s, id, chain, next, upto, finalNumber, items, done)
    requires forall l :: l in s.chains[chain].logs && OfAsset(l, contract, s.db.invoices[id].address, next, Min(upto, finalNumber)) ==> l in final
    requires forall l :: l in final ==> l.block < |s.chains[chain].heads| && ItemAt(s.chains[chain], l) in items
    ensures Window(s, id, chain, next, upto, finalNumber, items, done + [contract])
  {
  }

  /** One turn of the asset loop: the confirmed logs of the contract, then the unconfirmed ones.
      A tail log whose block header is unknown ends the scan. */
  method ScanAsset(ghost s: Sys, id: InvoiceId, chain: ChainId, ch: Chain, contract: Contract, address: Address,
                   next: nat, upto: nat, finalNumber: nat, tail: seq<Log>, tailHeads: map<nat, Head>,
                   items: seq<Item>, ghost done: seq<Contract>) returns (ok: bool, more: seq<Item>)
    requires id in s.db.invoices && s.db.invoices[id].address == address
    requires chain in s.chains && s.chains[chain] == ch && WellFormed(ch) && Asset(chain, contract) in s.catalog
    requires finalNumber < |ch.heads|
    requires Window(s, id, chain, next, upto, finalNumber, items, done)
    ensures ok ==> Window(s, id, chain, next, upto, finalNumber, more, done + [contract])
    ensures !ok ==> exists l :: l in tail && l.block !in tailHeads
  {
    var finalTo := Min(upto, finalNumber);
    var final := if next <= finalTo then LogsOf(ch.logs, contract, address, next, finalTo) else [];
    var rest := if upto > finalNumber then LogsOf(tail, contract, address, Max(next, finalNumber + 1), upto) else [];
    more := items;
    var j := 0;
    while j < |final|
      invariant 0 <= j <= |final|
      invariant Window(s, id, chain, next, upto, finalNumber, more, done)
      invariant forall l :: l in final[..j] ==> l.block < |ch.heads| && ItemAt(ch, l) in more
    {
      assert final[j] in final;
      OneMoreFits(s, id, chain, next, upto, finalNumber, more, done, ItemAt(ch, final[j]));
      more := more + [ItemAt(ch, final[j])];
      j := j + 1;
    }
    assert final[..j] == final;
    AssetDone(s, id, chain, next, upto, finalNumber, more, done, contract, final);
    j := 0;
    while j < |rest|
      invariant 0 <= j <= |rest|
      invariant Window(s, id, chain, next, upto, finalNumber, more, done + [contract])
    {
      assert rest[j] in rest;
      if rest[j].block !in tailHeads {
        return false, more;
      }
      var sighted := Item(rest[j], tailHeads[rest[j].block].hash, tailHeads[rest[j].block].time, false);
      OneMoreFits(s, id, chain, next, upto, finalNumber, more, done + [contract], sighted);
      more := more + [sighted];
      j := j + 1;
    }
    ok := true;
  }

  /** The window that scanCryptoInvoice reads for one chain is an honest one. `tail` is what the nodes
      report about blocks that are not final, `tailHeads` their headers; the other parameters are what
      it read of the invoice, the cursor row and the chain. */
  method ScanWindow(ghost s: Sys, id: InvoiceId, chain: ChainId, ch: Chain, contracts: seq<Contract>, address: Address,
                    next: nat, previousHash: Option<Hash>, finalNumber: nat, latest: nat,
                    tail: seq<Log>, tailHeads: map<nat, Head>) returns (r: Option<Scan>)
    requires id in s.db.invoices && s.db.invoices[id].address == address
    requires chain in s.chains && s.chains[chain] == ch && WellFormed(ch)
    requires forall x :: x in contracts <==> Asset(chain, x) in s.catalog
    requires finalNumber < |ch.heads| && finalNumber <= latest
    ensures next > latest ==> r.None?
    ensures r.Some? ==> Honest(s, r.value) && r.value.invoice == id && r.value.chain == chain && r.value.from == next
    ensures r.Some? ==> (r.value.next > next <==> next <= finalNumber)
    ensures r.None? && next <= latest ==> exists l :: l in tail && l.block !in tailHeads
  {
    if next > latest {
      return None;
    }
    var upto := Min(next + 499, latest);
    var items: seq<Item> := [];
    var k := 0;
    while k < |contracts|
      invariant 0 <= k <= |contracts|
      invariant Window(s, id, chain, next, upto, finalNumber, items, contracts[..k])
    {
      assert contracts[k] in contracts;
      var ok, more := ScanAsset(s, id, chain, ch, contracts[k], address, next, upto, finalNumber, tail, tailHeads, items, contracts[..k]);
      if !ok {
        return None;
      }
      assert contracts[..k + 1] == contracts[..k] + [contracts[k]];
      items := more;
      k := k + 1;
    }
    assert contracts[..k] == contracts;
    var finalTo := Min(upto, finalNumber);
    var w := Scan(id, chain, next, upto, if next <= finalTo then finalTo + 1 else next,
                  if next <= finalTo then Some(ch.heads[finalTo].hash) else previousHash,
                  finalNumber, ch.heads[finalNumber].time, items);
    r := Some(w);
  }

  /** The payment tables. Each method is one database transaction: on an error nothing is written. */
  class PaymentStore {
    var invoices: map<InvoiceId, Invoice>
    var orders: map<OrderId, Order>
    var receipts: seq<Receipt>
    var cursors: map<CursorKey, Cursor>
    var transfers: map<TransferKey, Transfer>
    var observations: map<ObservationKey, Observation>
    var frozen: set<ChainId>

    ghost function View(): Db
      reads this
    {
      Db(invoices, orders, receipts, cursors, transfers, observations, frozen)
    }

    constructor ()
      ensures View() == Db(map[], map[], [], map[], map[], map[], {})
    {
      invoices, orders, receipts, cursors, transfers, observations, frozen := map[], map[], [], map[], map[], map[], {};
    }

    /** cryptoInvoiceAmounts. */
    method InvoiceAmounts(id: InvoiceId) returns (received: nat, confirmed: nat, remaining: nat, over: nat)
      requires id in invoices
      ensures received == ReceivedAtoms(View(), id)
      ensures confirmed == ConfirmedAtoms(View(), id)
      ensures confirmed + remaining == invoices[id].expected + over
      ensures remaining == 0 || over == 0
    {
      var v := invoices[id];
      ghost var db := View();
      ghost var f := (k: TransferKey) => if k in db.transfers then db.transfers[k].atoms as int else 0;
      ghost var g := (k: ObservationKey) => if k in db.observations then db.observations[k].atoms as int else 0;
      received, confirmed := 0, 0;
      var todo := transfers.Keys;
      ghost var seen: set<TransferKey>, good: set<TransferKey> := {}, {};
      while todo != {}
        invariant todo <= transfers.Keys
        invariant seen == ReceivedKeys(View(), id) - todo && good == ConfirmedKeys(View(), id) - todo
        invariant received == Sum(seen, f) && confirmed == Sum(good, f)
      {
        var k :| k in todo;
        var t := transfers[k];
        todo := todo - {k};
        if t.invoice == id && k.chain == v.chain && t.contract == v.contract {
          received := received + t.atoms;
          SumInsert(seen, f, k);
          seen := seen + {k};
          if t.state == Confirmed && t.time < v.expires {
            confirmed := confirmed + t.atoms;
            SumInsert(good, f, k);
            good := good + {k};
          }
        }
      }
      assert seen == ReceivedKeys(View(), id) && good == ConfirmedKeys(View(), id);
      var pending := observations.Keys;
      ghost var watched: set<ObservationKey>, settled := {}, received;
      while pending != {}
        invariant pending <= observations.Keys
        invariant watched == ObservedKeys(View(), id) - pending
        invariant received == settled + Sum(watched, g)
      {
        var o :| o in pending;
        var n := observations[o];
        pending := pending - {o};
        if n.invoice == id && o.chain == v.chain && n.contract == v.contract {
          received := received + n.atoms;
          SumInsert(watched, g, o);
          watched := watched + {o};
        }
      }
      assert watched == ObservedKeys(View(), id);
      SumsAgree(db, id, f, g);
      remaining := if v.expected > confirmed then v.expected - confirmed else 0;
      over := if confirmed > v.expected then confirmed - v.expected else 0;
    }

    /** settleCryptoInvoice, inside the transaction of its caller. */
    method SettleInvoice(id: InvoiceId, deadlineFinal: bool) returns (error: Option<Error>)
      modifies this
      ensures match Settle(old(View()), id, deadlineFinal)
              case Ok(d) => error == None && View() == d
              case Err(e) => error == Some(e) && View() == old(View())
    {
      if id !in invoices || invoices[id].order !in orders {
        return Some(Missing);
      }
      var v := invoices[id];
      var received, confirmed, _, _ := InvoiceAmounts(id);
      var o := orders[v.order];
      var row, state := v, v.state;
      var current := o.state == Pending && o.current == Some(id);
      if confirmed >= v.expected && (state == Waiting || state == ReviewRequired) && current && v.attempt == Awaiting {
        if exists r :: r in receipts && r.invoice == id {
          return Some(Duplicate);
        }
        receipts := receipts + [Receipt(id, v.order)];
        row := row.(attempt := AttemptPaid);
        row := row.(state := Paid);
        state := Paid;
      } else if state != Paid && (confirmed > 0 || received != 0) && (!current || state == Superseded || state == Expired) {
        row := row.(state := ReviewRequired);
      }
      var review := exists k :: k in transfers && transfers[k].invoice == id && transfers[k].state == NeedsReview;
      if review && state != Paid {
        row := row.(state := ReviewRequired);
      }
      if deadlineFinal && (state == Waiting || state == ReviewRequired) && confirmed < v.expected && current {
        orders := orders[v.order := o.(state := OrderExpired)];
        row := row.(state := if confirmed > 0 || review then ReviewRequired else Expired);
        if row.attempt == Awaiting {
          row := row.(attempt := AttemptExpired);
        }
      }
      invoices := invoices[id := row];
      return None;
    }

    /** applyCryptoScan: lock the chain, compare the cursor, replace the window's rows, settle. */
    method ApplyCryptoScan(w: Scan) returns (error: Option<Error>)
      modifies this
      ensures match ApplyScan(old(View()), w)
              case Ok(d) => error == None && View() == d
              case Err(e) => error == Some(e) && View() == old(View())
    {
      var ck := CursorKey(w.invoice, w.chain);
      if w.chain in frozen {
        return Some(Finality);
      }
      if w.invoice !in invoices || ck !in cursors {
        return Some(Missing);
      }
      if cursors[ck].next != w.from {
        return None;
      }
      var v := invoices[w.invoice];
      var t := Tables(transfers, Unswept(observations, w));
      ghost var first := t;
      var n := 0;
      while n < |w.items|
        invariant 0 <= n <= |w.items|
        invariant ApplyItems(first, w.invoice, v, w.chain, w.items[..n]) == Ok(t)
      {
        var r := ApplyItem(t, w.invoice, v, w.chain, w.items[n]);
        assert w.items[..n + 1][..n] == w.items[..n];
        if r.Err? {
          ErrorStays(first, w.invoice, v, w.chain, w.items, n + 1);
          return Some(r.error);
        }
        t := r.value;
        n := n + 1;
      }
      assert w.items[..n] == w.items;
      var saved, savedTransfers, savedObservations := cursors, transfers, observations;
      transfers, observations := t.transfers, t.observations;
      cursors := cursors[ck := cursors[ck].(next := w.next, hash := w.hash)];
      error := SettleInvoice(w.invoice, DeadlineFinal(v, w));
      if error.Some? {
        cursors, transfers, observations := saved, savedTransfers, savedObservations;
      }
    }

    /** createCryptoInvoice from the chain lock on. */
    method CreateCryptoInvoice(n: NewInvoice) returns (error: Option<Error>)
      modifies this
      ensures match CreateInvoice(old(View()), n)
              case Ok(d) => error == None && View() == d
              case Err(e) => error == Some(e) && View() == old(View())
    {
      if n.chain in frozen {
        return Some(Finality);
      }
      if n.order !in orders || orders[n.order].state != Pending {
        return Some(Conflict);
      }
      var mine := set i | i in invoices && invoices[i].order == n.order;
      assert mine == OrderInvoices(old(View()), n.order);
      if |mine| >= INVOICE_LIMIT {
        return Some(Conflict);
      }
      if orders[n.order].current.Some? {
        var j := orders[n.order].current.value;
        if j !in invoices {
          return Some(Missing);
        }
        var p := invoices[j];
        if p.chain == n.chain && p.contract == n.contract {
          return Some(Conflict);
        }
        if (exists k :: k in transfers && transfers[k].invoice in mine) || (exists k :: k in observations && observations[k].invoice in mine) {
          return Some(Conflict);
        }
        if p.attempt != Awaiting {
          return Some(Conflict);
        }
        if p.state == Waiting {
          p := p.(state := Superseded);
        }
        p := p.(attempt := AttemptCancelled);
        invoices := invoices[j := p];
      }
      invoices := invoices[n.id := Invoice(n.order, n.chain, n.contract, n.address, n.expected, n.created, n.expires, n.startBlock, Waiting, Awaiting)];
      orders := orders[n.order := Order(Pending, Some(n.id))];
      return None;
    }
  }

  lemma SumsAgree(db: Db, id: InvoiceId, f: TransferKey -> int, g: ObservationKey -> int)
    requires id in db.invoices
    requires forall k :: k in db.transfers ==> f(k) == db.transfers[k].atoms
    requires forall o :: o in db.observations ==> g(o) == db.observations[o].atoms
    ensures ConfirmedAtoms(db, id) == Sum(ConfirmedKeys(db, id), f)
    ensures ReceivedAtoms(db, id) == Sum(ReceivedKeys(db, id), f) + Sum(ObservedKeys(db, id), g)
  {
    var f1 := k => if k in db.transfers then db.transfers[k].atoms else 0;
    SumCongruence(ConfirmedKeys(db, id), f, f1);
    SumCongruence(ReceivedKeys(db, id), f, f1);
    SumCongruence(ObservedKeys(db, id), g, k => if k in db.observations then db.observations[k].atoms else 0);
  }

  /** Once an item of a window fails, the whole window fails with its error. */
  lemma {:induction false} ErrorStays(t: Tables, id: InvoiceId, v: Invoice, chain: ChainId, items: seq<Item>, n: nat)
    requires n <= |items| && ApplyItems(t, id, v, chain, items[..n]).Err?
    ensures ApplyItems(t, id, v, chain, items) == ApplyItems(t, id, v, chain, items[..n])
    decreases |items| - n
  {
    if n == |items| {
      assert items[..n] == items;
    } else {
      assert items[..n + 1][..n] == items[..n];
      ErrorStays(t, id, v, chain, items, n + 1);
    }
  }
}
