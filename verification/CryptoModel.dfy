/** Crypto payment settlement: the chain as the payment worker sees it, the database
    rows it keeps, and every transaction that changes them, as functions on values.

    A payment attempt and its invoice are created together and never separated
    (`attempt_id` is unique in `crypto_invoices`), so an attempt is identified with its
    invoice and its state is a column of the invoice row. */
module CryptoModel {
  import opened Common
  import opened Sums

  type ChainId = nat
  type Contract = nat
  type Address = nat
  type Hash = nat
  type InvoiceId = nat
  type OrderId = nat

  datatype Error = Missing | Finality | Identity | Duplicate | Conflict
  datatype Result<T> = Ok(value: T) | Err(error: Error)

  // ---------------------------------------------------------------- the chain

  datatype Head = Head(hash: Hash, time: int)

  /** One ERC-20 Transfer event. `(tx, index)` is its identity on the chain. */
  datatype Log = Log(block: nat, contract: Contract, to: Address, atoms: nat, tx: Hash, index: nat)

  /** The finalized part of a chain. The unfinalized tail is not state: a scan may report
      anything at all about it. */
  datatype Chain = Chain(heads: seq<Head>, logs: seq<Log>)

  ghost predicate WellFormed(c: Chain)
  {
    && (forall i, j :: 0 <= i < j < |c.heads| ==> c.heads[i].time <= c.heads[j].time)
    && (forall a :: 0 <= a < |c.logs| ==> c.logs[a].block < |c.heads|)
    && (forall a, b :: 0 <= a < b < |c.logs| ==> c.logs[a].tx != c.logs[b].tx || c.logs[a].index != c.logs[b].index)
  }

  /** Finality advanced: the old final part is a prefix of the new one. */
  ghost predicate Extends(c: Chain, d: Chain)
  {
    && c.heads <= d.heads
    && c.logs <= d.logs
    && (forall a :: |c.logs| <= a < |d.logs| ==> |c.heads| <= d.logs[a].block)
  }

  // ------------------------------------------------------------- the database

  datatype InvoiceState = Waiting | ReviewRequired | Paid | Expired | Superseded
  datatype AttemptState = Awaiting | AttemptPaid | AttemptCompleted | AttemptExpired | AttemptCancelled | RefundRequired
  datatype OrderState = Pending | Provisioning | Completed | OrderExpired | Cancelled | Failed
  datatype TransferState = Confirmed | NeedsReview

  datatype Asset = Asset(chain: ChainId, contract: Contract)

  datatype Invoice = Invoice(order: OrderId, chain: ChainId, contract: Contract, address: Address,
                             expected: nat, created: int, expires: int, startBlock: nat,
                             state: InvoiceState, attempt: AttemptState)

  datatype Order = Order(state: OrderState, current: Option<InvoiceId>)

  datatype CursorKey = CursorKey(invoice: InvoiceId, chain: ChainId)
  /** `start` records the value the row was created with; the table itself keeps only the rest. */
  datatype Cursor = Cursor(start: nat, next: nat, hash: Option<Hash>)

  datatype TransferKey = TransferKey(chain: ChainId, tx: Hash, index: nat)
  datatype Transfer = Transfer(invoice: InvoiceId, contract: Contract, atoms: nat,
                               block: nat, hash: Hash, time: int, state: TransferState)

  datatype ObservationKey = ObservationKey(chain: ChainId, tx: Hash, hash: Hash, index: nat)
  datatype Observation = Observation(invoice: InvoiceId, contract: Contract, atoms: nat, block: nat, time: int)

  datatype Receipt = Receipt(invoice: InvoiceId, order: OrderId)

  datatype Db = Db(invoices: map<InvoiceId, Invoice>,
                   orders: map<OrderId, Order>,
                   receipts: seq<Receipt>,
                   cursors: map<CursorKey, Cursor>,
                   transfers: map<TransferKey, Transfer>,
                   observations: map<ObservationKey, Observation>,
                   frozen: set<ChainId>)

  datatype Tables = Tables(transfers: map<TransferKey, Transfer>, observations: map<ObservationKey, Observation>)

  // ------------------------------------------------------------ scanned windows

  /** One scanned transfer log with the header of its block. */
  datatype Item = Item(log: Log, hash: Hash, time: int, final: bool)

  /** The window that one scan hands to `applyCryptoScan`. */
  datatype Scan = Scan(invoice: InvoiceId, chain: ChainId, from: nat, to: nat, next: nat, hash: Option<Hash>,
                       finalNumber: nat, finalTime: int, items: seq<Item>)

  function Min(a: nat, b: nat): nat { if a <= b then a else b }
  function Max(a: nat, b: nat): nat { if a <= b then b else a }

  function ClassifyTransfer(v: Invoice, chain: ChainId, it: Item): TransferState
  {
    if chain != v.chain || it.log.contract != v.contract then NeedsReview
    else if it.time >= v.expires then NeedsReview
    else if it.time < v.created then NeedsReview
    else Confirmed
  }

  function KeyOf(chain: ChainId, log: Log): TransferKey { TransferKey(chain, log.tx, log.index) }

  function RowOf(id: InvoiceId, v: Invoice, chain: ChainId, it: Item): Transfer
  {
    Transfer(id, it.log.contract, it.log.atoms, it.log.block, it.hash, it.time, ClassifyTransfer(v, chain, it))
  }

  /** The effect of one scanned log, `for _, item := range transfers` in applyCryptoScan. */
  function ApplyItem(t: Tables, id: InvoiceId, v: Invoice, chain: ChainId, it: Item): Result<Tables>
  {
    var l := it.log;
    var k := KeyOf(chain, l);
    if l.atoms == 0 then Ok(t)
    else if l.to != v.address then Err(Identity)
    else if !it.final then
      if exists k :: k in t.transfers && k.chain == chain && k.tx == l.tx then Ok(t)
      else Ok(t.(observations := t.observations[ObservationKey(chain, l.tx, it.hash, l.index) :=
                   Observation(id, l.contract, l.atoms, l.block, it.time)]))
    else
      var kept := map o | o in t.observations && !(o.chain == chain && o.tx == l.tx) :: t.observations[o];
      var row := RowOf(id, v, chain, it);
      if k !in t.transfers then Ok(Tables(t.transfers[k := row], kept))
      else
        var prior := t.transfers[k];
        if prior.invoice != id || prior.atoms != l.atoms || prior.hash != it.hash then Err(Finality)
        else Ok(Tables(t.transfers[k := prior.(block := row.block, hash := row.hash, time := row.time, state := row.state)], kept))
  }

  function ApplyItems(t: Tables, id: InvoiceId, v: Invoice, chain: ChainId, items: seq<Item>): Result<Tables>
  {
    if items == [] then Ok(t)
    else match ApplyItems(t, id, v, chain, items[..|items| - 1])
         case Ok(u) => ApplyItem(u, id, v, chain, items[|items| - 1])
         case Err(e) => Err(e)
  }

  // ---------------------------------------------------------------- settlement

  /** The rows that count towards the invoice: right network and contract, confirmed, in time. */
  function ConfirmedKeys(db: Db, id: InvoiceId): set<TransferKey>
    requires id in db.invoices
  {
    var v := db.invoices[id];
    set k | k in db.transfers && db.transfers[k].invoice == id && k.chain == v.chain &&
            db.transfers[k].contract == v.contract && db.transfers[k].state == Confirmed &&
            db.transfers[k].time < v.expires
  }

  ghost function ConfirmedAtoms(db: Db, id: InvoiceId): int
    requires id in db.invoices
  {
    Sum(ConfirmedKeys(db, id), k => if k in db.transfers then db.transfers[k].atoms else 0)
  }

  function ReceivedKeys(db: Db, id: InvoiceId): set<TransferKey>
    requires id in db.invoices
  {
    var v := db.invoices[id];
    set k | k in db.transfers && db.transfers[k].invoice == id && k.chain == v.chain && db.transfers[k].contract == v.contract
  }

  function ObservedKeys(db: Db, id: InvoiceId): set<ObservationKey>
    requires id in db.invoices
  {
    var v := db.invoices[id];
    set k | k in db.observations && db.observations[k].invoice == id && k.chain == v.chain &&
            db.observations[k].contract == v.contract
  }

  ghost function ReceivedAtoms(db: Db, id: InvoiceId): int
    requires id in db.invoices
  {
    Sum(ReceivedKeys(db, id), k => if k in db.transfers then db.transfers[k].atoms else 0)
    + Sum(ObservedKeys(db, id), k => if k in db.observations then db.observations[k].atoms else 0)
  }

  predicate UnderReview(db: Db, id: InvoiceId)
  {
    exists k :: k in db.transfers && db.transfers[k].invoice == id && db.transfers[k].state == NeedsReview
  }

  /** The order is still waiting for exactly this invoice. */
  predicate Open(db: Db, id: InvoiceId)
  {
    && id in db.invoices
    && db.invoices[id].order in db.orders
    && db.orders[db.invoices[id].order] == Order(Pending, Some(id))
    && db.invoices[id].attempt == Awaiting
  }

  /** settleCryptoInvoice. `v` is the invoice as read at the start of the transaction. */
  ghost function Settle(db: Db, id: InvoiceId, deadlineFinal: bool): Result<Db>
  {
    if id !in db.invoices || db.invoices[id].order !in db.orders then Err(Missing)
    else
      var v := db.invoices[id];
      var o := db.orders[v.order];
      var confirmed := ConfirmedAtoms(db, id);
      var live := v.state == Waiting || v.state == ReviewRequired;
      var current := o.state == Pending && o.current == Some(id);
      var review := UnderReview(db, id);
      if confirmed >= v.expected && live && current && v.attempt == Awaiting then
        if exists r :: r in db.receipts && r.invoice == id then Err(Duplicate)
        else Ok(db.(receipts := db.receipts + [Receipt(id, v.order)],
                    invoices := db.invoices[id := v.(state := Paid, attempt := AttemptPaid)]))
      else
        var flagged := v.state != Paid && (confirmed > 0 || ReceivedAtoms(db, id) != 0)
                       && (!current || v.state == Superseded || v.state == Expired);
        var state1 := if flagged || (review && v.state != Paid) then ReviewRequired else v.state;
        if deadlineFinal && live && confirmed < v.expected && current then
          Ok(db.(orders := db.orders[v.order := o.(state := OrderExpired)],
                 invoices := db.invoices[id := v.(state := if confirmed > 0 || review then ReviewRequired else Expired,
                                                  attempt := if v.attempt == Awaiting then AttemptExpired else v.attempt)]))
        else Ok(db.(invoices := db.invoices[id := v.(state := state1)]))
  }

  /** The observations that survive the rescan of blocks `from..to`. */
  function Unswept(obs: map<ObservationKey, Observation>, w: Scan): map<ObservationKey, Observation>
  {
    map o | o in obs && !(obs[o].invoice == w.invoice && o.chain == w.chain && w.from <= obs[o].block <= w.to) :: obs[o]
  }

  /** The deadline is final once everything up to a final block later than it was scanned. */
  predicate DeadlineFinal(v: Invoice, w: Scan)
  {
    w.chain == v.chain && w.next > w.finalNumber && w.finalTime > v.expires
  }

  /** applyCryptoScan: one database transaction. */
  ghost function ApplyScan(db: Db, w: Scan): Result<Db>
  {
    var ck := CursorKey(w.invoice, w.chain);
    if w.chain in db.frozen then Err(Finality)
    else if w.invoice !in db.invoices || ck !in db.cursors then Err(Missing)
    else if db.cursors[ck].next != w.from then Ok(db)
    else
      var v := db.invoices[w.invoice];
      match ApplyItems(Tables(db.transfers, Unswept(db.observations, w)), w.invoice, v, w.chain, w.items)
      case Err(e) => Err(e)
      case Ok(t) =>
        Settle(db.(transfers := t.transfers, observations := t.observations,
                   cursors := db.cursors[ck := db.cursors[ck].(next := w.next, hash := w.hash)]),
               w.invoice, DeadlineFinal(v, w))
  }

  // --------------------------------------------------- invoices and order actions

  datatype NewInvoice = NewInvoice(id: InvoiceId, order: OrderId, chain: ChainId, contract: Contract, address: Address,
                                   expected: nat, created: int, expires: int, startBlock: nat)

  function OrderInvoices(db: Db, o: OrderId): set<InvoiceId>
  {
    set i | i in db.invoices && db.invoices[i].order == o
  }

  predicate AnyTransfer(db: Db, o: OrderId)
  {
    || (exists k :: k in db.transfers && db.transfers[k].invoice in OrderInvoices(db, o))
    || (exists k :: k in db.observations && db.observations[k].invoice in OrderInvoices(db, o))
  }

  const INVOICE_LIMIT := 12

  /** The transaction of createCryptoInvoice: a first invoice, or a switch to another asset. */
  function CreateInvoice(db: Db, n: NewInvoice): Result<Db>
  {
    if n.chain in db.frozen then Err(Finality)
    else if n.order !in db.orders || db.orders[n.order].state != Pending then Err(Conflict)
    else if |OrderInvoices(db, n.order)| >= INVOICE_LIMIT then Err(Conflict)
    else
      var added := Invoice(n.order, n.chain, n.contract, n.address, n.expected, n.created, n.expires, n.startBlock, Waiting, Awaiting);
      match db.orders[n.order].current
      case None =>
        Ok(db.(invoices := db.invoices[n.id := added], orders := db.orders[n.order := Order(Pending, Some(n.id))]))
      case Some(j) =>
        if j !in db.invoices then Err(Missing)
        else
          var p := db.invoices[j];
          if p.chain == n.chain && p.contract == n.contract then Err(Conflict)
          else if AnyTransfer(db, n.order) then Err(Conflict)
          else if p.attempt != Awaiting then Err(Conflict)
          else
            var retired := p.(state := if p.state == Waiting then Superseded else p.state, attempt := AttemptCancelled);
            Ok(db.(invoices := db.invoices[j := retired][n.id := added],
                   orders := db.orders[n.order := Order(Pending, Some(n.id))]))
  }

  /** The first scan of an invoice on a chain inserts its cursor row unless there is one. */
  function OpenCursor(db: Db, ck: CursorKey, start: nat): Db
  {
    if ck in db.cursors then db else db.(cursors := db.cursors[ck := Cursor(start, start, None)])
  }

  function Freeze(db: Db, c: ChainId): Db { db.(frozen := db.frozen + {c}) }

  /** cryptoLockOrderPayment: the order's invoice must be on a network that is not frozen. */
  predicate PaymentUsable(db: Db, o: OrderId)
    requires o in db.orders
  {
    match db.orders[o].current
    case None => true
    case Some(i) => i in db.invoices && db.invoices[i].chain !in db.frozen
  }

  function SetAttempt(db: Db, o: OrderId, from: set<AttemptState>, to: AttemptState): map<InvoiceId, Invoice>
    requires o in db.orders
  {
    match db.orders[o].current
    case None => db.invoices
    case Some(i) =>
      if i in db.invoices && db.invoices[i].attempt in from then db.invoices[i := db.invoices[i].(attempt := to)] else db.invoices
  }

  function SetOrder(db: Db, o: OrderId, state: OrderState): map<OrderId, Order>
    requires o in db.orders
  {
    db.orders[o := db.orders[o].(state := state)]
  }

  function ConfirmOrder(db: Db, o: OrderId): Result<Db>
  {
    if o !in db.orders || db.orders[o].state != Pending || !PaymentUsable(db, o) then Err(Conflict)
    else if db.orders[o].current.Some? && db.invoices[db.orders[o].current.value].attempt != AttemptPaid then Err(Conflict)
    else Ok(db.(orders := SetOrder(db, o, Provisioning)))
  }

  function FulfilOrder(db: Db, o: OrderId): Result<Db>
  {
    if o !in db.orders || db.orders[o].state != Provisioning || !PaymentUsable(db, o) then Err(Conflict)
    else Ok(db.(orders := SetOrder(db, o, Completed), invoices := SetAttempt(db, o, {AttemptPaid}, AttemptCompleted)))
  }

  function FailOrder(db: Db, o: OrderId): Result<Db>
  {
    if o !in db.orders || db.orders[o].state != Provisioning then Err(Conflict)
    else Ok(db.(orders := SetOrder(db, o, Failed), invoices := SetAttempt(db, o, {AttemptPaid, AttemptCompleted}, RefundRequired)))
  }

  function CancelOrder(db: Db, o: OrderId): Result<Db>
  {
    if o !in db.orders || (db.orders[o].state != Pending && db.orders[o].state != Provisioning) then Err(Conflict)
    else
      var paid := db.orders[o].current.Some? && db.orders[o].current.value in db.invoices &&
                  db.invoices[db.orders[o].current.value].attempt == AttemptPaid;
      Ok(db.(orders := SetOrder(db, o, Cancelled),
             invoices := SetAttempt(db, o, {Awaiting, AttemptPaid}, if paid then RefundRequired else AttemptCancelled)))
  }

  /** paymentRefundRequired on a verified receipt whose order could not be activated. */
  function RefundPending(db: Db, o: OrderId): Result<Db>
  {
    if o !in db.orders || db.orders[o].state != Pending || db.orders[o].current.None? then Err(Conflict)
    else if db.orders[o].current.value !in db.invoices || db.invoices[db.orders[o].current.value].attempt != AttemptPaid then Err(Conflict)
    else Ok(db.(orders := SetOrder(db, o, Failed), invoices := SetAttempt(db, o, {AttemptPaid}, RefundRequired)))
  }

  /** commerceWork writes back, as expired, the document of a pending order it has read before. That
      document names no payment; only the state is compared, so a payment chosen since is lost. */
  function WriteExpired(db: Db, o: OrderId): Db
  {
    if o in db.orders && db.orders[o].state == Pending then db.(orders := db.orders[o := Order(OrderExpired, None)]) else db
  }

  // -------------------------------------------------------------------- runs

  /** `read` holds the orders that a commerce worker has read as pending without a payment and not
      written since. `dropped` records the invoices that such a write took from their order; no
      transaction looks at it. */
  datatype Sys = Sys(db: Db, chains: map<ChainId, Chain>, catalog: set<Asset>, read: set<OrderId>, dropped: set<InvoiceId>)

  datatype Event =
    | Finalize(chain: ChainId, next: Chain)
    | PlaceOrder(order: OrderId)
    | Create(invoice: NewInvoice)
    | FirstScan(key: CursorKey, start: nat)
    | Apply(scan: Scan)
    | Halt(chain: ChainId)
    | Confirm(order: OrderId)
    | Fulfil(order: OrderId)
    | Fail(order: OrderId)
    | Cancel(order: OrderId)
    | Refund(order: OrderId)
    | Read(order: OrderId)
    | Expire(order: OrderId)

  /** A failed transaction changes nothing. */
  function Commit(s: Sys, r: Result<Db>): Sys
  {
    if r.Ok? then s.(db := r.value) else s
  }

  /** The invoice that a write of order `o` as expired takes away, if any. */
  function Lost(db: Db, o: OrderId): set<InvoiceId>
  {
    if o in db.orders && db.orders[o].state == Pending && db.orders[o].current.Some? then {db.orders[o].current.value} else {}
  }

  function ExpireRead(s: Sys, o: OrderId): Sys
  {
    s.(db := WriteExpired(s.db, o), read := s.read - {o}, dropped := s.dropped + Lost(s.db, o))
  }

  ghost function Step(s: Sys, e: Event): Sys
  {
    match e
    case Finalize(c, n) => s.(chains := s.chains[c := n])
    case PlaceOrder(o) => if o in s.db.orders then s else s.(db := s.db.(orders := s.db.orders[o := Order(Pending, None)]))
    case Create(n) => Commit(s, CreateInvoice(s.db, n))
    case FirstScan(k, start) => s.(db := OpenCursor(s.db, k, start))
    case Apply(w) =>
      // A changed final history freezes the network.
      (match ApplyScan(s.db, w)
       case Ok(d) => s.(db := d)
       case Err(Finality) => s.(db := Freeze(s.db, w.chain))
       case Err(_) => s)
    case Halt(c) => s.(db := Freeze(s.db, c))
    case Confirm(o) => Commit(s, ConfirmOrder(s.db, o))
    case Fulfil(o) => Commit(s, FulfilOrder(s.db, o))
    case Fail(o) => Commit(s, FailOrder(s.db, o))
    case Cancel(o) => Commit(s, CancelOrder(s.db, o))
    case Refund(o) => Commit(s, RefundPending(s.db, o))
    case Read(o) => if o in s.db.orders && s.db.orders[o] == Order(Pending, None) then s.(read := s.read + {o}) else s
    case Expire(o) => if o in s.read then ExpireRead(s, o) else s
  }

  /** `log` is one that a scan for this address asks the chain for. */
  predicate Asked(catalog: set<Asset>, c: ChainId, address: Address, log: Log)
  {
    log.to == address && Asset(c, log.contract) in catalog
  }

  function ItemAt(ch: Chain, log: Log): Item
    requires log.block < |ch.heads|
  {
    Item(log, ch.heads[log.block].hash, ch.heads[log.block].time, true)
  }

  /** `log` is final, lies in the window and concerns the scanned invoice. */
  predicate InWindow(s: Sys, w: Scan, log: Log)
  {
    && w.invoice in s.db.invoices
    && w.chain in s.chains
    && log.block < |s.chains[w.chain].heads|
    && Asked(s.catalog, w.chain, s.db.invoices[w.invoice].address, log)
    && w.from <= log.block <= Min(w.to, w.finalNumber)
  }

  /** What a scan may report. Its final part is exactly what the chain holds in the window;
      about blocks that are not final yet it may report anything. */
  ghost predicate Honest(s: Sys, w: Scan)
  {
    && w.invoice in s.db.invoices
    && w.chain in s.chains
    && (var ch := s.chains[w.chain];
        var v := s.db.invoices[w.invoice];
        var finalTo := Min(w.to, w.finalNumber);
        && w.finalNumber < |ch.heads|
        && w.finalTime == ch.heads[w.finalNumber].time
        && w.from <= w.to <= w.from + 499
        && w.next == (if w.from <= finalTo then finalTo + 1 else w.from)
        && (forall it :: it in w.items ==>
              && w.from <= it.log.block <= w.to
              && Asked(s.catalog, w.chain, v.address, it.log)
              && (it.final <==> it.log.block <= w.finalNumber)
              && (it.final ==> it.log in ch.logs && it == ItemAt(ch, it.log)))
        && (forall a :: 0 <= a < |ch.logs| && InWindow(s, w, ch.logs[a]) ==> ItemAt(ch, ch.logs[a]) in w.items))
  }

  /** What the environment guarantees of an event. */
  ghost predicate Allowed(s: Sys, e: Event)
  {
    match e
    case Finalize(c, n) => WellFormed(n) && (c in s.chains ==> Extends(s.chains[c], n))
    case Create(n) =>
      && n.id !in s.db.invoices
      && n.expected > 0
      && Asset(n.chain, n.contract) in s.catalog
      && n.chain in s.chains && n.startBlock < |s.chains[n.chain].heads|
      && (forall i :: i in s.db.invoices ==> s.db.invoices[i].address != n.address)
    case FirstScan(k, start) =>
      && k.invoice in s.db.invoices
      && k.chain in s.chains && start < |s.chains[k.chain].heads|
      && (k.chain == s.db.invoices[k.invoice].chain ==> start == s.db.invoices[k.invoice].startBlock)
    case Apply(w) => Honest(s, w)
    case _ => true
  }

  ghost predicate Init(s: Sys)
  {
    && s.db == Db(map[], map[], [], map[], map[], map[], {})
    && s.read == {} && s.dropped == {}
    && (forall c :: c in s.chains ==> WellFormed(s.chains[c]))
  }

  /** `t` is reached from `s` by the events `es`, each allowed where it happens. */
  ghost predicate Reaches(s: Sys, es: seq<Event>, t: Sys)
    decreases |es|
  {
    if es == [] then s == t
    else Allowed(s, es[0]) && Reaches(Step(s, es[0]), es[1..], t)
  }
}
