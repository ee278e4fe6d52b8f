/** The wallet ledger and the life of an order: double-entry postings with a checkpoint chain, and
    the order steps that post them. A missing wallet row reads as empty. */
module LedgerModel {
  import opened Common

  type UserId = nat
  type OrderId = nat

  const MONEY_LIMIT: int := 100_000_000_000
  const INT64: int := 0x1_0000_0000_0000_0000
  const QUOTA_LIMIT: int := 0x1000_0000_0000_0000

  // ------------------------------------------------------------------ ledger

  /** Unique keys of money events; `Outside` covers adjustments, top-ups and redeemed codes. */
  datatype EventKey = Hold(order: OrderId) | Release(order: OrderId) | Capture(order: OrderId) | Refund(order: OrderId) | Outside(id: nat)
  datatype Kind = HoldKind | ReleaseKind | PurchaseKind | RefundKind | OtherKind(name: string)
  datatype Account = Available(user: UserId) | Held(user: UserId) | System(kind: Kind)

  /** `available` and `held` are the checkpoint after the transaction. */
  datatype Txn = Txn(key: EventKey, revision: nat, kind: Kind, amount: int, available: int, held: int, entries: map<Account, int>)
  datatype Wallet = Wallet(available: int, held: int, revision: nat)

  function Row(a: Account, amount: int): map<Account, int> { if amount == 0 then map[] else map[a := amount] }

  function EntriesOf(u: UserId, kind: Kind, a: int, h: int): map<Account, int>
  {
    Row(Available(u), a) + Row(Held(u), h) + Row(System(kind), -(a + h))
  }

  datatype OrderState = Pending | Provisioning | Completed | Refunding | Refunded | RefundPending | Cancelled | Failed | Expired

  /** `online` tells that a payment attempt was recorded, so that the wallet is not involved. */
  datatype Order = Order(user: UserId, price: int, state: OrderState, online: bool, refund: int)

  /** `ledger` holds each user's transactions in posting order; `keys` is the unique index over all. */
  datatype DB = DB(wallets: map<UserId, Wallet>, ledger: map<UserId, seq<Txn>>, keys: set<EventKey>, orders: map<OrderId, Order>)

  function WalletOf(db: DB, u: UserId): Wallet { if u in db.wallets then db.wallets[u] else Wallet(0, 0, 0) }
  function History(db: DB, u: UserId): seq<Txn> { if u in db.ledger then db.ledger[u] else [] }

  /** The checkpoint stored under a wallet revision. */
  function Checkpoint(history: seq<Txn>, revision: nat): Option<(int, int)>
    decreases |history|
  {
    if history == [] then None
    else if history[|history| - 1].revision == revision then Some((history[|history| - 1].available, history[|history| - 1].held))
    else Checkpoint(history[..|history| - 1], revision)
  }

  predicate WithinLimits(a: int, h: int)
  {
    0 <= a <= MONEY_LIMIT && 0 <= h <= MONEY_LIMIT && a + h <= MONEY_LIMIT
  }

  /** postMoney: None writes nothing. */
  function PostMoney(db: DB, u: UserId, key: EventKey, kind: Kind, a: int, h: int): Option<DB>
  {
    var w := WalletOf(db, u);
    var next := Wallet(w.available + a, w.held + h, w.revision + 1);
    if !WithinLimits(next.available, next.held) then None
    else
      var before := if next.revision > 1 then Checkpoint(History(db, u), w.revision) else Some((0, 0));
      if before != Some((w.available, w.held)) || key in db.keys then None
      else
        var txn := Txn(key, next.revision, kind, if a + h == 0 then h else a + h, next.available, next.held, EntriesOf(u, kind, a, h));
        Some(db.(wallets := db.wallets[u := next], ledger := db.ledger[u := History(db, u) + [txn]], keys := db.keys + {key}))
  }

  // ------------------------------------------------------------------ refunds

  /** Go's int64 multiplication and truncating division. */
  function Wrap(x: int): int
  {
    var m := x % INT64;
    if m >= INT64 / 2 then m - INT64 else m
  }

  function Quotient(x: int, d: int): int
    requires d > 0
  {
    if x >= 0 then x / d else -((-x) / d)
  }

  /** What the entitlement of an order says about its unused part: all of it, by traffic, or by time. */
  datatype Basis = Whole | ByQuota(quota: int, used: int) | ByTime(days: int, left: int)

  /** refundableOrderAmount. */
  function RefundAmount(price: int, b: Basis): int
    requires b.ByQuota? ==> b.quota > 0
    requires b.ByTime? ==> b.days > 0
  {
    if price <= 0 then 0
    else match b
      case Whole => price
      case ByQuota(quota, used) =>
        if used <= 0 then price
        else Quotient(Wrap(price * (quota - (if used < quota then used else quota))), quota)
      case ByTime(days, left) =>
        var total, rest := days * 86400, if left > 0 then left else 0;
        if rest < total then Quotient(Wrap(price * rest), total) else price
  }

  predicate ValidBasis(b: Basis)
  {
    match b
    case Whole => true
    case ByQuota(quota, _) => 0 < quota <= QUOTA_LIMIT
    case ByTime(days, _) => 0 < days <= 36500
  }

  // ------------------------------------------------------------------ orders

  predicate ActiveState(s: OrderState) { s.Pending? || s.Provisioning? || s.Refunding? }

  /** The unique index over a user's active orders, and commercePendingExcept. */
  predicate HasActive(orders: map<OrderId, Order>, u: UserId, except: Option<OrderId>)
  {
    exists o :: o in orders && Some(o) != except && orders[o].user == u && ActiveState(orders[o].state)
  }

  function SaveOrder(db: DB, o: OrderId, x: Order): DB { db.(orders := db.orders[o := x]) }

  /** The posting of a step, if it has one, then the new order; one transaction. */
  function Settle(db: DB, o: OrderId, x: Order, due: bool, key: EventKey, kind: Kind, a: int, h: int): DB
  {
    if !due then SaveOrder(db, o, x)
    else match PostMoney(db, x.user, key, kind, a, h)
      case None => db
      case Some(d) => SaveOrder(d, o, x)
  }

  function CreateOrder(db: DB, o: OrderId, u: UserId, price: int): DB
  {
    if o in db.orders || price < 0 || price > MONEY_LIMIT || HasActive(db.orders, u, None) then db
    else SaveOrder(db, o, Order(u, price, Pending, false, 0))
  }

  /** A payment attempt is recorded on a pending order that costs something. */
  function AttachPayment(db: DB, o: OrderId): DB
    requires o in db.orders
  {
    var x := db.orders[o];
    if x.state.Pending? && x.price > 0 then SaveOrder(db, o, x.(online := true)) else db
  }

  /** The worker writes back the document it read, which may miss a payment attempt recorded since. */
  function ExpireOrder(db: DB, o: OrderId, stale: bool): DB
    requires o in db.orders
  {
    var x := db.orders[o];
    if x.state.Pending? then SaveOrder(db, o, x.(state := Expired, online := x.online && !stale)) else db
  }

  function ConfirmOrder(db: DB, o: OrderId): DB
    requires o in db.orders
  {
    var x := db.orders[o];
    if x.state.Pending? then Settle(db, o, x.(state := Provisioning), !x.online && x.price > 0, Hold(o), HoldKind, -x.price, x.price) else db
  }

  function CancelOrder(db: DB, o: OrderId): DB
    requires o in db.orders
  {
    var x := db.orders[o];
    if x.state.Pending? then SaveOrder(db, o, x.(state := Cancelled))
    else if x.state.Provisioning? then Settle(db, o, x.(state := Cancelled), !x.online && x.price > 0, Release(o), ReleaseKind, x.price, -x.price)
    else db
  }

  /** failProvisioning, and the disabled account in fulfilOrder. */
  function FailOrder(db: DB, o: OrderId): DB
    requires o in db.orders
  {
    var x := db.orders[o];
    if x.state.Provisioning? then Settle(db, o, x.(state := Failed), !x.online && x.price > 0, Release(o), ReleaseKind, x.price, -x.price) else db
  }

  /** A payment that cannot be used ends a pending order. */
  function FailPayment(db: DB, o: OrderId): DB
    requires o in db.orders
  {
    var x := db.orders[o];
    if x.state.Pending? && x.online then SaveOrder(db, o, x.(state := Failed)) else db
  }

  function CompleteOrder(db: DB, o: OrderId): DB
    requires o in db.orders
  {
    var x := db.orders[o];
    if x.state.Provisioning? then Settle(db, o, x.(state := Completed), !x.online && x.price > 0, Capture(o), PurchaseKind, 0, -x.price) else db
  }

  /** Where the entitlement of an order stands: in force, in the queue, or replaced by another. */
  datatype Standing = Active | Queued | Replaced

  /** The refund action: an active entitlement is withdrawn first, a queued one is refunded at once and whole. */
  function StartRefund(db: DB, o: OrderId, standing: Standing, b: Basis): DB
    requires o in db.orders && ValidBasis(b)
  {
    var x := db.orders[o];
    if !x.state.Completed? || standing.Replaced? || HasActive(db.orders, x.user, Some(o)) then db
    else if standing.Active? then SaveOrder(db, o, x.(state := Refunding, refund := RefundAmount(x.price, b)))
    else
      var amount := RefundAmount(x.price, Whole);
      Settle(db, o, x.(state := if x.online then RefundPending else Refunded, refund := amount),
             !x.online && x.price > 0, Refund(o), RefundKind, amount, 0)
  }

  /** The withdrawal and the refund of a refunding order; `sourced`: the user's entitlement still comes from it. */
  function FinishRefund(db: DB, o: OrderId, sourced: bool): DB
    requires o in db.orders
  {
    var x := db.orders[o];
    if x.state.Refunding? && sourced
    then Settle(db, o, x.(state := if x.online then RefundPending else Refunded), !x.online && x.refund > 0, Refund(o), RefundKind, x.refund, 0)
    else db
  }

  /** finishPaymentRefund: the provider returned an online payment. */
  function FinishPaymentRefund(db: DB, o: OrderId): DB
    requires o in db.orders
  {
    var x := db.orders[o];
    if x.online && (x.state.RefundPending? || x.state.Failed? || x.state.Cancelled? || x.state.Expired?)
    then SaveOrder(db, o, x.(state := Refunded)) else db
  }

  // ------------------------------------------------------------------ runs

  datatype Action =
    | Attach
    | Expire(stale: bool)
    | Confirm
    | Cancel
    | Fail
    | Reject
    | Complete
    | AskRefund(standing: Standing, basis: Basis)
    | PayRefund(sourced: bool)
    | ReturnPayment

  datatype Event =
    | Create(id: OrderId, user: UserId, price: int)
    | Act(o: OrderId, action: Action)
    | Move(user: UserId, outside: nat, name: string, amount: int)

  predicate Allowed(e: Event)
  {
    (e.Act? && e.action.AskRefund? ==> ValidBasis(e.action.basis)) && (e.Move? ==> e.amount != 0)
  }

  function ActOn(db: DB, o: OrderId, action: Action): DB
    requires o in db.orders && (action.AskRefund? ==> ValidBasis(action.basis))
  {
    match action
    case Attach => AttachPayment(db, o)
    case Expire(stale) => ExpireOrder(db, o, stale)
    case Confirm => ConfirmOrder(db, o)
    case Cancel => CancelOrder(db, o)
    case Fail => FailOrder(db, o)
    case Reject => FailPayment(db, o)
    case Complete => CompleteOrder(db, o)
    case AskRefund(standing, b) => StartRefund(db, o, standing, b)
    case PayRefund(sourced) => FinishRefund(db, o, sourced)
    case ReturnPayment => FinishPaymentRefund(db, o)
  }

  function Step(db: DB, e: Event): DB
    requires Allowed(e)
  {
    match e
    case Create(o, u, price) => CreateOrder(db, o, u, price)
    case Act(o, action) => if o in db.orders then ActOn(db, o, action) else db
    case Move(u, id, name, amount) =>
      match PostMoney(db, u, Outside(id), OtherKind(name), amount, 0)
      case None => db
      case Some(d) => d
  }

  ghost predicate Reaches(s: DB, es: seq<Event>, t: DB)
    decreases |es|
  {
    if es == [] then s == t else Allowed(es[0]) && Reaches(Step(s, es[0]), es[1..], t)
  }

  const Empty := DB(map[], map[], {}, map[])
}
