/** Refund arithmetic in 64 bits, and the theorems about whole runs of orders and money movements. */
module LedgerTheorems {
  import opened Common
  import opened Sums
  import opened LedgerModel
  import opened LedgerSafety
  import opened LedgerOrders

  // ------------------------------------------------------------------ refund arithmetic

  lemma ShareBelow(price: nat, part: nat, whole: nat)
    requires part <= whole
    ensures 0 <= price * part <= price * whole
  {
  }

  lemma WrapBehaves(x: nat)
    ensures x < INT64 / 2 ==> Wrap(x) == x
    ensures x >= INT64 / 2 ==> -(INT64 / 2) <= Wrap(x) < INT64 / 2 && Wrap(x) <= x - INT64 / 2 && (Wrap(x) >= 0 ==> Wrap(x) <= x - INT64)
  {
    var q := x / INT64;
    assert x == q * INT64 + x % INT64;
  }

  lemma QuotientAtMost(x: nat, d: nat, q: nat)
    requires d > 0 && x <= q * d
    ensures 0 <= x / d <= q
  {
    assert x / d * d <= x;
    assert (q + 1) * d == q * d + d;
    MulLess(x / d, q + 1, d);
  }

  /** Even where the product leaves int64, a share of the price never exceeds the price. */
  lemma ShareBounded(price: nat, part: nat, whole: nat)
    requires part <= whole && 0 < whole
    ensures 0 - price <= Quotient(Wrap(price * part), whole) <= price
  {
    var x := price * part;
    ShareBelow(price, part, whole);
    WrapBehaves(x);
    var w := Wrap(x);
    QuotientAtMost(if w >= 0 then w else -w, whole, price);
  }

  lemma DivideShift(x: int, y: int, d: nat)
    requires d > 0 && 0 <= y <= x - d
    ensures 0 <= y / d < x / d
  {
    assert 0 <= y / d && (y / d) * d <= y;
    assert x < (x / d) * d + d;
    MulLess(y / d, x / d, d);
  }

  lemma WrappedIsLess(x: nat, d: nat)
    requires 0 < d <= QUOTA_LIMIT && x >= INT64 / 2
    ensures Quotient(Wrap(x), d) < x / d
  {
    WrapBehaves(x);
    var w := Wrap(x);
    if w >= 0 {
      DivideShift(x, w, d);
    } else {
      DivideShift(x, 0, d);
      NegativeQuotient(w, d);
    }
  }

  lemma NegativeQuotient(w: int, d: nat)
    requires d > 0 && w < 0
    ensures Quotient(w, d) <= 0
  {
    assert (-w) / d >= 0;
  }

  /** The refund is the rounded-down share of the price exactly when the product fits int64. */
  lemma ShareExactlyWhen(x: nat, whole: nat)
    requires 0 < whole <= QUOTA_LIMIT
    ensures Quotient(Wrap(x), whole) == x / whole <==> x < INT64 / 2
  {
    if x < INT64 / 2 {
      WrapBehaves(x);
    } else {
      WrappedIsLess(x, whole);
    }
  }

  function UsedOf(quota: int, used: int): int { if used < quota then used else quota }

  lemma RefundBounded(price: int, b: Basis)
    requires 0 <= price <= MONEY_LIMIT && ValidBasis(b)
    ensures -price <= RefundAmount(price, b) <= price
  {
    match b
    case Whole =>
    case ByQuota(quota, used) => if used > 0 { ShareBounded(price, quota - UsedOf(quota, used), quota); }
    case ByTime(days, left) => if left < days * 86400 { ShareBounded(price, if left > 0 then left else 0, days * 86400); }
  }

  /** By traffic: the unused share of the price, unless the product overflows. */
  lemma QuotaRefundExactlyWhen(price: nat, quota: int, used: nat)
    requires 0 < price <= MONEY_LIMIT && 0 < quota <= QUOTA_LIMIT && 0 < used <= quota
    ensures RefundAmount(price, ByQuota(quota, used)) == price * (quota - used) / quota <==> price * (quota - used) < INT64 / 2
  {
    ShareBelow(price, quota - used, quota);
    ShareExactlyWhen(price * (quota - used), quota);
  }

  /** By time: the share of the days left, unless the product overflows. */
  lemma TimeRefundExactlyWhen(price: nat, days: int, left: nat)
    requires 0 < price <= MONEY_LIMIT && 0 < days <= 36500 && left < days * 86400
    ensures RefundAmount(price, ByTime(days, left)) == price * left / (days * 86400) <==> price * left < INT64 / 2
  {
    ShareBelow(price, left, days * 86400);
    ShareExactlyWhen(price * left, days * 86400);
  }

  /** A dearly priced package with a tenth used: the product overflows and the refund comes out wrong. */
  lemma RefundOverflows()
    ensures RefundAmount(10_000_000_000, ByQuota(1_000_000_000_000, 100_000_000_000)) != 9_000_000_000
  {
    QuotaRefundExactlyWhen(10_000_000_000, 1_000_000_000_000, 100_000_000_000);
  }

  // ------------------------------------------------------------------ order steps

  lemma ConfirmKeepsInv(db: DB, o: OrderId)
    requires Inv(db) && o in db.orders
    ensures Inv(ConfirmOrder(db, o))
  {
    var x := db.orders[o];
    if x.state.Pending? {
      StaysSole(db.orders, o, x.(state := Provisioning));
      SettleKeepsInv(db, o, x.(state := Provisioning), !x.online && x.price > 0, Hold(o), HoldKind, -x.price, x.price);
    }
  }

  lemma CancelKeepsInv(db: DB, o: OrderId)
    requires Inv(db) && o in db.orders
    ensures Inv(CancelOrder(db, o))
  {
    var x := db.orders[o];
    if x.state.Pending? {
      SaveKeepsInv(db, o, x.(state := Cancelled));
    } else if x.state.Provisioning? {
      SettleKeepsInv(db, o, x.(state := Cancelled), !x.online && x.price > 0, Release(o), ReleaseKind, x.price, -x.price);
    }
  }

  lemma FailKeepsInv(db: DB, o: OrderId)
    requires Inv(db) && o in db.orders
    ensures Inv(FailOrder(db, o))
  {
    var x := db.orders[o];
    if x.state.Provisioning? {
      SettleKeepsInv(db, o, x.(state := Failed), !x.online && x.price > 0, Release(o), ReleaseKind, x.price, -x.price);
    }
  }

  lemma CompleteKeepsInv(db: DB, o: OrderId)
    requires Inv(db) && o in db.orders
    ensures Inv(CompleteOrder(db, o))
  {
    var x := db.orders[o];
    if x.state.Provisioning? {
      SettleKeepsInv(db, o, x.(state := Completed), !x.online && x.price > 0, Capture(o), PurchaseKind, 0, -x.price);
    }
  }

  lemma StartRefundKeepsInv(db: DB, o: OrderId, standing: Standing, b: Basis)
    requires Inv(db) && o in db.orders && ValidBasis(b)
    ensures Inv(StartRefund(db, o, standing, b))
  {
    var x := db.orders[o];
    RefundBounded(x.price, b);
    if x.state.Completed? && !HasActive(db.orders, x.user, Some(o)) {
      if standing.Active? {
        SaveKeepsInv(db, o, x.(state := Refunding, refund := RefundAmount(x.price, b)));
      } else {
        var amount := RefundAmount(x.price, Whole);
        SettleKeepsInv(db, o, x.(state := if x.online then RefundPending else Refunded, refund := amount),
                       !x.online && x.price > 0, Refund(o), RefundKind, amount, 0);
      }
    }
  }

  lemma FinishRefundKeepsInv(db: DB, o: OrderId, sourced: bool)
    requires Inv(db) && o in db.orders
    ensures Inv(FinishRefund(db, o, sourced))
  {
    var x := db.orders[o];
    if x.state.Refunding? {
      SettleKeepsInv(db, o, x.(state := if x.online then RefundPending else Refunded), !x.online && x.refund > 0, Refund(o), RefundKind, x.refund, 0);
    }
  }

  lemma QuietKeepsInv(db: DB, o: OrderId, action: Action)
    requires Inv(db) && o in db.orders && (action.Attach? || action.Expire? || action.Reject? || action.ReturnPayment?)
    ensures Inv(ActOn(db, o, action))
  {
    var x := db.orders[o];
    match action
    case Attach => if x.state.Pending? && x.price > 0 { StaysSole(db.orders, o, x.(online := true)); SaveKeepsInv(db, o, x.(online := true)); }
    case Expire(stale) => if x.state.Pending? { SaveKeepsInv(db, o, x.(state := Expired, online := x.online && !stale)); }
    case Reject => if x.state.Pending? && x.online { SaveKeepsInv(db, o, x.(state := Failed)); }
    case ReturnPayment =>
      if x.online && (x.state.RefundPending? || x.state.Failed? || x.state.Cancelled? || x.state.Expired?) {
        SaveKeepsInv(db, o, x.(state := Refunded));
      }
  }

  lemma CreateKeepsInv(db: DB, o: OrderId, u: UserId, price: int)
    requires Inv(db)
    ensures Inv(CreateOrder(db, o, u, price))
  {
    if o !in db.orders && 0 <= price <= MONEY_LIMIT && !HasActive(db.orders, u, None) {
      assert Foreign(db, u, o) && Fresh(db, o);
      SaveKeepsInv(db, o, Order(u, price, Pending, false, 0));
    }
  }

  lemma MoveKeepsOrders(db: DB, d: DB, u: UserId, id: nat, amount: int, o: OrderId)
    requires Inv(db) && Posted(db, d, u, Outside(id), amount, 0) && o in d.orders
    ensures OrderFine(d, o, d.orders[o])
  {
    var x := d.orders[o];
    assert OrderFine(db, o, x);
    assert Movements(History(d, x.user), x.user, o) == Movements(History(db, x.user), x.user, o);
    assert d.keys * KeysOf(o) == db.keys * KeysOf(o);
  }

  lemma MoveKeepsBook(db: DB, d: DB, u: UserId, id: nat, amount: int, v: UserId)
    requires Inv(db) && Posted(db, d, u, Outside(id), amount, 0)
    ensures BookFine(d, v) && HeldMatches(d, v)
  {
    assert BookFine(db, v) && HeldMatches(db, v);
    if v != u { BookSame(db, d, v); }
  }

  lemma MovedKeepsInv(db: DB, d: DB, u: UserId, id: nat, amount: int)
    requires Inv(db) && Posted(db, d, u, Outside(id), amount, 0)
    ensures Inv(d)
  {
    forall v ensures BookFine(d, v) && HeldMatches(d, v) { MoveKeepsBook(db, d, u, id, amount, v); }
    forall o | o in d.orders ensures OrderFine(d, o, d.orders[o]) { MoveKeepsOrders(db, d, u, id, amount, o); }
    forall v, o ensures Foreign(d, v, o) {
      assert Foreign(db, v, o);
      PostedForeign(db, d, u, o, Outside(id), amount, 0, v, o);
    }
    forall o ensures Fresh(d, o) { assert Fresh(db, o); }
  }

  /** Money from outside: adjustments, top-ups and codes. */
  lemma MoveKeepsInv(db: DB, u: UserId, id: nat, name: string, amount: int)
    requires Inv(db) && amount != 0
    requires PostMoney(db, u, Outside(id), OtherKind(name), amount, 0).Some?
    ensures Inv(PostMoney(db, u, Outside(id), OtherKind(name), amount, 0).value)
  {
    assert BookFine(db, u);
    PostKeepsBooks(db, u, Outside(id), OtherKind(name), amount, 0);
    MovedKeepsInv(db, PostMoney(db, u, Outside(id), OtherKind(name), amount, 0).value, u, id, amount);
  }

  lemma ActionKeepsInv(db: DB, o: OrderId, action: Action)
    requires Inv(db) && o in db.orders && (action.AskRefund? ==> ValidBasis(action.basis))
    ensures Inv(ActOn(db, o, action))
  {
    match action
    case Confirm => ConfirmKeepsInv(db, o);
    case Cancel => CancelKeepsInv(db, o);
    case Fail => FailKeepsInv(db, o);
    case Complete => CompleteKeepsInv(db, o);
    case AskRefund(standing, b) => StartRefundKeepsInv(db, o, standing, b);
    case PayRefund(sourced) => FinishRefundKeepsInv(db, o, sourced);
    case _ => QuietKeepsInv(db, o, action);
  }

  lemma StepKeepsInv(db: DB, e: Event)
    requires Inv(db) && Allowed(e)
    ensures Inv(Step(db, e))
  {
    match e
    case Create(o, u, price) => CreateKeepsInv(db, o, u, price);
    case Act(o, action) => if o in db.orders { ActionKeepsInv(db, o, action); }
    case Move(u, id, name, amount) =>
      if PostMoney(db, u, Outside(id), OtherKind(name), amount, 0).Some? { MoveKeepsInv(db, u, id, name, amount); }
  }

  lemma EmptyIsInv()
    ensures Inv(Empty)
  {
  }

  lemma {:induction false} RunKeepsInv(s: DB, es: seq<Event>, t: DB)
    requires Inv(s) && Reaches(s, es, t)
    ensures Inv(t)
    decreases |es|
  {
    if es != [] {
      StepKeepsInv(s, es[0]);
      RunKeepsInv(Step(s, es[0]), es[1..], t);
    }
  }

  // ------------------------------------------------------------------ theorems

  /** Every reachable ledger: balances within limits and equal to the entries, one revision per
      transaction, every checkpoint the running balance, balanced entries, and holds equal to the
      prices of the provisioning orders paid from the balance. */
  lemma LedgerHolds(es: seq<Event>, db: DB, u: UserId)
    requires Reaches(Empty, es, db)
    ensures BookFine(db, u) && HeldMatches(db, u)
  {
    EmptyIsInv();
    RunKeepsInv(Empty, es, db);
  }

  lemma OneActiveOrder(es: seq<Event>, db: DB)
    requires Reaches(Empty, es, db)
    ensures OneActive(db.orders)
  {
    EmptyIsInv();
    RunKeepsInv(Empty, es, db);
  }

  function Net(m: seq<Movement>): (int, int)
    decreases |m|
  {
    if m == [] then (0, 0)
    else (Net(m[..|m| - 1]).0 + m[|m| - 1].available, Net(m[..|m| - 1]).1 + m[|m| - 1].held)
  }

  function Repaid(x: Order): int { if x.refund > 0 then x.refund else 0 }

  /** What an order has moved on (available, held) is fixed by its state. */
  ghost predicate NetFits(net: (int, int), x: Order)
  {
    match x.state
    case Pending => net == (0, 0)
    case Cancelled => net == (0, 0)
    case Failed => net == (0, 0)
    case Expired => net == (0, 0)
    case Provisioning => net == (-x.price, x.price)
    case Completed => net == (-x.price, 0)
    case Refunding => net == (-x.price, 0)
    case Refunded => 0 <= Repaid(x) <= x.price && net == (Repaid(x) - x.price, 0)
    case RefundPending => false
  }

  lemma NetOfThree(a: Movement, b: Movement, c: Movement)
    ensures Net([]) == (0, 0)
    ensures Net([a]) == (a.available, a.held)
    ensures Net([a, b]) == (a.available + b.available, a.held + b.held)
    ensures Net([a, b] + [c]) == (a.available + b.available + c.available, a.held + b.held + c.held)
  {
    assert [a][..0] == [];
    assert Net([a]) == (a.available, a.held);
    assert [a, b][..1] == [a];
    assert ([a, b] + [c])[..2] == [a, b];
  }

  lemma TrailNet(m: seq<Movement>, o: OrderId, x: Order)
    requires TrailFits(m, o, x) && BalancePaid(x) && x.refund <= x.price
    ensures NetFits(Net(m), x)
  {
    var p := x.price;
    NetOfThree(Movement(Hold(o), -p, p), Movement(Release(o), p, -p), Movement(Refund(o), x.refund, 0));
    NetOfThree(Movement(Hold(o), -p, p), Movement(Capture(o), 0, -p), Movement(Refund(o), x.refund, 0));
    if x.state.Refunded? {
      assert [Movement(Hold(o), -p, p), Movement(Capture(o), 0, -p)] + [] == [Movement(Hold(o), -p, p), Movement(Capture(o), 0, -p)];
    }
  }

  /** Hold, release, capture and refund happen at most once each, in that order, and a release excludes
      a capture: the movements of an order are one of a few fixed lists, and so is their net effect. */
  lemma OrderMoneyIsFixedByState(es: seq<Event>, db: DB, o: OrderId)
    requires Reaches(Empty, es, db) && o in db.orders
    ensures var x := db.orders[o];
            var m := Movements(History(db, x.user), x.user, o);
            && TrailFits(m, o, x)
            && (if BalancePaid(x) then NetFits(Net(m), x) else Net(m) == (0, 0))
  {
    EmptyIsInv();
    RunKeepsInv(Empty, es, db);
    var x := db.orders[o];
    if BalancePaid(x) {
      TrailNet(Movements(History(db, x.user), x.user, o), o, x);
    }
  }

  /** The checkpoint comparison never stops a posting on a reachable ledger. */
  lemma CheckpointNeverRefuses(es: seq<Event>, db: DB, u: UserId, key: EventKey, kind: Kind, a: int, h: int)
    requires Reaches(Empty, es, db)
    ensures PostMoney(db, u, key, kind, a, h).Some?
            <==> WithinLimits(WalletOf(db, u).available + a, WalletOf(db, u).held + h) && key !in db.keys
  {
    LedgerHolds(es, db, u);
    PostSucceeds(db, u, key, kind, a, h);
  }

  lemma HeldCovers(db: DB, o: OrderId)
    requires Inv(db) && o in db.orders
    ensures HeldFor(db.orders[o]) <= WalletOf(db, db.orders[o].user).held
  {
    var u := db.orders[o].user;
    assert HeldMatches(db, u);
    forall p | p in db.orders.Keys ensures 0 <= HeldOf(db.orders, u)(p) {
      assert OrderFine(db, p, db.orders[p]);
    }
    SumAtLeast(db.orders.Keys, HeldOf(db.orders, u), o);
  }

  lemma KeyIsFree(db: DB, o: OrderId, key: EventKey)
    requires Inv(db) && o in db.orders && key in KeysOf(o)
    requires key !in KeySet(Movements(History(db, db.orders[o].user), db.orders[o].user, o))
    ensures key !in db.keys
  {
  }

  /** Money that was held can always be given back or taken: a provisioning order can be cancelled,
      failed or completed whatever else happened to the wallet. */
  lemma HeldMoneyIsNeverStuck(es: seq<Event>, db: DB, o: OrderId)
    requires Reaches(Empty, es, db) && o in db.orders && db.orders[o].state.Provisioning?
    ensures CancelOrder(db, o).orders[o].state == Cancelled
    ensures FailOrder(db, o).orders[o].state == Failed
    ensures CompleteOrder(db, o).orders[o].state == Completed
  {
    EmptyIsInv();
    RunKeepsInv(Empty, es, db);
    HeldCovers(db, o);
    var x := db.orders[o];
    if BalancePaid(x) {
      KeyIsFree(db, o, Release(o));
      KeyIsFree(db, o, Capture(o));
      PostSucceeds(db, x.user, Release(o), ReleaseKind, x.price, -x.price);
      PostSucceeds(db, x.user, Capture(o), PurchaseKind, 0, -x.price);
    }
  }

  /** A refund to the balance waits exactly while the user's entitlement no longer comes from the order or
      the amount would pass the wallet's limit. */
  lemma RefundWaitsExactlyWhen(es: seq<Event>, db: DB, o: OrderId, sourced: bool)
    requires Reaches(Empty, es, db) && o in db.orders && db.orders[o].state.Refunding? && BalancePaid(db.orders[o])
    ensures var x, w := db.orders[o], WalletOf(db, db.orders[o].user);
            FinishRefund(db, o, sourced).orders[o].state == Refunded
            <==> sourced && (x.refund <= 0 || w.available + w.held + x.refund <= MONEY_LIMIT)
  {
    EmptyIsInv();
    RunKeepsInv(Empty, es, db);
    var x := db.orders[o];
    if x.refund > 0 {
      KeyIsFree(db, o, Refund(o));
      PostSucceeds(db, x.user, Refund(o), RefundKind, x.refund, 0);
    }
  }
}
