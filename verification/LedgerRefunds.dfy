/** Order steps in full: which go through, and what a refund pays, from the request to the wallet. */
module LedgerRefunds {
  import opened Common
  import opened LedgerModel
  import opened LedgerSafety
  import opened LedgerOrders
  import opened LedgerTheorems

  // ------------------------------------------------------------------ what is due

  /** The unused part of an entitlement, out of the whole. */
  function Part(b: Basis): nat
    requires ValidBasis(b)
    ensures Part(b) <= Total(b)
  {
    match b
    case Whole => 1
    case ByQuota(quota, used) => if used <= 0 then quota else if used >= quota then 0 else quota - used
    case ByTime(days, left) => if left <= 0 then 0 else if left >= days * 86400 then days * 86400 else left
  }

  function Total(b: Basis): nat
    requires ValidBasis(b)
    ensures Total(b) > 0
  {
    match b
    case Whole => 1
    case ByQuota(quota, _) => quota
    case ByTime(days, _) => days * 86400
  }

  /** The share of the price for the unused part, rounded down. */
  function Due(price: nat, b: Basis): int
    requires ValidBasis(b)
  {
    Share(price, Part(b), Total(b))
  }

  function Share(price: nat, part: nat, whole: nat): int
    requires whole > 0
  {
    var x: int := price * part;
    x / whole
  }

  /** The product fits 64 bits, or nothing is used and no product is taken. */
  predicate Computable(price: nat, b: Basis)
    requires ValidBasis(b)
  {
    Part(b) == Total(b) || Product(price, Part(b)) < INT64 / 2
  }

  function Product(x: nat, y: nat): int { x * y }

  lemma WholeShare(price: nat, n: nat)
    requires n > 0
    ensures Share(price, n, n) == price
  {
    var x := Product(price, n);
    var q := x / n;
    assert q * n <= x < q * n + n;
    assert (q + 1) * n == q * n + n;
    MulCancel(q, price, n);
    MulLess(price, q + 1, n);
  }

  lemma PartShare(price: nat, part: nat, whole: nat)
    requires 0 < whole <= QUOTA_LIMIT
    ensures Quotient(Wrap(Product(price, part)), whole) == Share(price, part, whole) <==> Product(price, part) < INT64 / 2
    ensures Product(price, part) >= INT64 / 2 ==>
              Quotient(Wrap(Product(price, part)), whole) < Share(price, part, whole) && 0 < Share(price, part, whole)
  {
    var x := Product(price, part);
    ProductIsNat(price, part);
    ShareExactlyWhen(x, whole);
    if x >= INT64 / 2 {
      WrappedIsLess(x, whole);
      DivideShift(x, 0, whole);
    }
  }

  lemma ProductIsNat(x: nat, y: nat)
    ensures Product(x, y) >= 0 && Product(0, y) == 0 && Product(x, 0) == 0
  {
  }

  lemma NoShare(part: nat, whole: nat)
    requires whole > 0
    ensures Share(0, part, whole) == 0
  {
    ProductIsNat(part, 0);
  }

  /** By the three bases: all, nothing or a part of the price. */
  lemma AmountOf(price: nat, b: Basis)
    requires 0 < price && ValidBasis(b)
    ensures RefundAmount(price, b) == if Part(b) == Total(b) then price else Quotient(Wrap(Product(price, Part(b))), Total(b))
  {
  }

  /** The amount the code computes is the share due, for every valid basis, if and only if it is computable;
      otherwise it is less. */
  lemma RefundAmountExactly(price: nat, b: Basis)
    requires ValidBasis(b)
    ensures RefundAmount(price, b) == Due(price, b) <==> Computable(price, b)
    ensures RefundAmount(price, b) <= Due(price, b)
    ensures RefundAmount(price, b) != Due(price, b) ==> 0 < Due(price, b)
  {
    if price == 0 {
      NoShare(Part(b), Total(b));
      ProductIsNat(0, Part(b));
    } else {
      AmountOf(price, b);
      if Part(b) == Total(b) {
        WholeShare(price, Total(b));
      } else {
        PartShare(price, Part(b), Total(b));
      }
    }
  }

  // ------------------------------------------------------------------ which steps go through

  lemma ReachableInv(es: seq<Event>, db: DB)
    requires Reaches(Empty, es, db)
    ensures Inv(db)
  {
    EmptyIsInv();
    RunKeepsInv(Empty, es, db);
  }

  /** `d` is `db` after an order got state `state` and refund `refund`, and its user's wallet moved by (a, h). */
  ghost predicate Became(db: DB, d: DB, o: OrderId, state: OrderState, refund: int, a: int, h: int)
    requires o in db.orders
  {
    var x := db.orders[o];
    && d.orders == db.orders[o := x.(state := state, refund := refund)]
    && WalletOf(d, x.user).available == WalletOf(db, x.user).available + a
    && WalletOf(d, x.user).held == WalletOf(db, x.user).held + h
    && (forall v :: v != x.user ==> WalletOf(d, v) == WalletOf(db, v))
    && (a == 0 && h == 0 ==> d.wallets == db.wallets && d.ledger == db.ledger && d.keys == db.keys)
  }

  lemma PostedBecomes(db: DB, d: DB, o: OrderId, y: Order, key: EventKey, a: int, h: int)
    requires o in db.orders && y == db.orders[o].(state := y.state, refund := y.refund)
    requires Posted(db, d, y.user, key, a, h) && (a != 0 || h != 0)
    ensures Became(db, SaveOrder(d, o, y), o, y.state, y.refund, a, h)
  {
  }

  lemma SettleBecomes(db: DB, o: OrderId, y: Order, due: bool, key: EventKey, kind: Kind, a: int, h: int)
    requires Inv(db) && o in db.orders && y == db.orders[o].(state := y.state, refund := y.refund)
    requires key in KeysOf(o) && (due ==> a != 0 || h != 0)
    requires due ==> key !in KeySet(Movements(History(db, y.user), y.user, o))
    ensures var d, w := Settle(db, o, y, due, key, kind, a, h), WalletOf(db, y.user);
            if !due then Became(db, d, o, y.state, y.refund, 0, 0)
            else if WithinLimits(w.available + a, w.held + h) then Became(db, d, o, y.state, y.refund, a, h)
            else d == db
  {
    if due {
      KeyIsFree(db, o, key);
      PostSucceeds(db, y.user, key, kind, a, h);
      if PostMoney(db, y.user, key, kind, a, h).Some? {
        PostKeepsBooks(db, y.user, key, kind, a, h);
        PostedBecomes(db, PostMoney(db, y.user, key, kind, a, h).value, o, y, key, a, h);
      }
    }
  }

  lemma ConfirmHolds(db: DB, o: OrderId)
    requires Inv(db) && o in db.orders && db.orders[o].state.Pending? && BalancePaid(db.orders[o])
    ensures var x, d := db.orders[o], Step(db, Act(o, Confirm));
            if x.price <= WalletOf(db, x.user).available then Became(db, d, o, Provisioning, x.refund, -x.price, x.price) else d == db
  {
    var x := db.orders[o];
    assert BookFine(db, x.user) && OrderFine(db, o, x);
    SettleBecomes(db, o, x.(state := Provisioning), true, Hold(o), HoldKind, -x.price, x.price);
  }

  /** A pending order is confirmed exactly if the balance covers its price, unless it is paid online or free;
      the price is then held. */
  lemma ConfirmsExactlyWhen(es: seq<Event>, db: DB, o: OrderId)
    requires Reaches(Empty, es, db) && o in db.orders
    ensures var x, d := db.orders[o], Step(db, Act(o, Confirm));
            if !x.state.Pending? then d == db
            else if !BalancePaid(x) then Became(db, d, o, Provisioning, x.refund, 0, 0)
            else if x.price <= WalletOf(db, x.user).available then Became(db, d, o, Provisioning, x.refund, -x.price, x.price)
            else d == db
  {
    ReachableInv(es, db);
    assert OrderFine(db, o, db.orders[o]);
    if db.orders[o].state.Pending? && BalancePaid(db.orders[o]) {
      ConfirmHolds(db, o);
    }
  }

  function HeldNow(x: Order): int { if BalancePaid(x) then x.price else 0 }

  lemma CancelReleases(db: DB, o: OrderId)
    requires Inv(db) && o in db.orders && db.orders[o].state.Provisioning?
    ensures Became(db, Step(db, Act(o, Cancel)), o, Cancelled, db.orders[o].refund, HeldNow(db.orders[o]), -HeldNow(db.orders[o]))
  {
    var x := db.orders[o];
    assert BookFine(db, x.user) && OrderFine(db, o, x);
    HeldCovers(db, o);
    SettleBecomes(db, o, x.(state := Cancelled), BalancePaid(x), Release(o), ReleaseKind, x.price, -x.price);
  }

  lemma FailReleases(db: DB, o: OrderId)
    requires Inv(db) && o in db.orders && db.orders[o].state.Provisioning?
    ensures Became(db, Step(db, Act(o, Fail)), o, Failed, db.orders[o].refund, HeldNow(db.orders[o]), -HeldNow(db.orders[o]))
  {
    var x := db.orders[o];
    assert BookFine(db, x.user) && OrderFine(db, o, x);
    HeldCovers(db, o);
    SettleBecomes(db, o, x.(state := Failed), BalancePaid(x), Release(o), ReleaseKind, x.price, -x.price);
  }

  lemma CompleteCaptures(db: DB, o: OrderId)
    requires Inv(db) && o in db.orders && db.orders[o].state.Provisioning?
    ensures Became(db, Step(db, Act(o, Complete)), o, Completed, db.orders[o].refund, 0, -HeldNow(db.orders[o]))
  {
    var x := db.orders[o];
    assert BookFine(db, x.user) && OrderFine(db, o, x);
    HeldCovers(db, o);
    SettleBecomes(db, o, x.(state := Completed), BalancePaid(x), Capture(o), PurchaseKind, 0, -x.price);
  }

  /** What a step away from provisioning does: the hold is released or captured, never refused. */
  lemma LeavesProvisioning(es: seq<Event>, db: DB, o: OrderId)
    requires Reaches(Empty, es, db) && o in db.orders && db.orders[o].state.Provisioning?
    ensures var x, p := db.orders[o], HeldNow(db.orders[o]);
            && Became(db, Step(db, Act(o, Cancel)), o, Cancelled, x.refund, p, -p)
            && Became(db, Step(db, Act(o, Fail)), o, Failed, x.refund, p, -p)
            && Became(db, Step(db, Act(o, Complete)), o, Completed, x.refund, 0, -p)
  {
    ReachableInv(es, db);
    CancelReleases(db, o);
    FailReleases(db, o);
    CompleteCaptures(db, o);
  }

  /** The steps that move no money, in every state. */
  lemma QuietSteps(db: DB, o: OrderId, stale: bool)
    requires o in db.orders
    ensures var x := db.orders[o];
            && Step(db, Act(o, Attach)) == (if x.state.Pending? && x.price > 0 then db.(orders := db.orders[o := x.(online := true)]) else db)
            && Step(db, Act(o, Expire(stale)))
               == (if x.state.Pending? then db.(orders := db.orders[o := x.(state := Expired, online := x.online && !stale)]) else db)
            && Step(db, Act(o, Reject)) == (if x.state.Pending? && x.online then db.(orders := db.orders[o := x.(state := Failed)]) else db)
            && (x.state.Pending? ==> Step(db, Act(o, Cancel)) == db.(orders := db.orders[o := x.(state := Cancelled)]))
            && (!x.state.Pending? && !x.state.Provisioning? ==> Step(db, Act(o, Cancel)) == db)
            && (!x.state.Provisioning? ==> Step(db, Act(o, Fail)) == db && Step(db, Act(o, Complete)) == db)
            && Step(db, Act(o, ReturnPayment))
               == (if x.online && x.state in {RefundPending, Failed, Cancelled, Expired}
                   then db.(orders := db.orders[o := x.(state := Refunded)]) else db)
  {
  }

  /** An order is placed exactly if its id is new, its price is in range and the user has no active order. */
  lemma PlacesExactlyWhen(db: DB, o: OrderId, u: UserId, price: int)
    ensures var free := forall p :: p in db.orders && db.orders[p].user == u ==>
                          db.orders[p].state !in {Pending, Provisioning, Refunding};
            Step(db, Create(o, u, price))
            == if o !in db.orders && 0 <= price <= MONEY_LIMIT && free
               then db.(orders := db.orders[o := Order(u, price, Pending, false, 0)]) else db
  {
    if HasActive(db.orders, u, None) {
      var p :| p in db.orders && db.orders[p].user == u && ActiveState(db.orders[p].state);
      assert db.orders[p].state in {Pending, Provisioning, Refunding};
    }
  }

  /** A movement from outside, such as a top-up, is booked exactly if the balance stays in range and its key
      is new; it adds its amount to the balance. */
  lemma MovesExactlyWhen(es: seq<Event>, db: DB, u: UserId, id: nat, name: string, amount: int)
    requires Reaches(Empty, es, db) && amount != 0
    ensures var d, w := Step(db, Move(u, id, name, amount)), WalletOf(db, u);
            if 0 <= w.available + amount && w.available + w.held + amount <= MONEY_LIMIT && Outside(id) !in db.keys
            then d.orders == db.orders && WalletOf(d, u) == Wallet(w.available + amount, w.held, w.revision + 1)
                 && (forall v :: v != u ==> WalletOf(d, v) == WalletOf(db, v))
                 && |History(d, u)| == |History(db, u)| + 1
                 && (var t := History(d, u)[|History(db, u)|]; t.key == Outside(id) && t.kind == OtherKind(name) && t.amount == amount)
            else d == db
  {
    ReachableInv(es, db);
    assert BookFine(db, u);
    PostSucceeds(db, u, Outside(id), OtherKind(name), amount, 0);
    if PostMoney(db, u, Outside(id), OtherKind(name), amount, 0).Some? {
      var d, t := PostResult(db, u, Outside(id), OtherKind(name), amount, 0);
    }
  }

  // ------------------------------------------------------------------ refunds over runs

  /** Another order of the user is active. */
  ghost predicate Busy(db: DB, o: OrderId)
    requires o in db.orders
  {
    exists p :: p in db.orders && p != o && db.orders[p].user == db.orders[o].user && db.orders[p].state in {Pending, Provisioning, Refunding}
  }

  lemma BusyIsActive(db: DB, o: OrderId)
    requires o in db.orders
    ensures Busy(db, o) <==> HasActive(db.orders, db.orders[o].user, Some(o))
  {
    if HasActive(db.orders, db.orders[o].user, Some(o)) {
      var p :| p in db.orders && p != o && db.orders[p].user == db.orders[o].user && ActiveState(db.orders[p].state);
      assert db.orders[p].state in {Pending, Provisioning, Refunding};
    }
  }

  /** A refund is asked for: exactly if the order is completed, its entitlement is not replaced and no other
      order is active. An active entitlement
      is withdrawn first, and what the code computes is recorded; the whole price of a queued one goes back
      at once, to the balance if that was used and has room. */
  lemma RefundStarts(es: seq<Event>, db: DB, o: OrderId, standing: Standing, b: Basis)
    requires Reaches(Empty, es, db) && o in db.orders && ValidBasis(b)
    ensures 0 <= db.orders[o].price
    ensures var x, d := db.orders[o], Step(db, Act(o, AskRefund(standing, b)));
            var w := WalletOf(db, x.user);
            if !x.state.Completed? || standing == Replaced || Busy(db, o) then d == db
            else if standing == Active then
              && d == db.(orders := db.orders[o := d.orders[o]])
              && d.orders[o] == x.(state := Refunding, refund := d.orders[o].refund)
              && (d.orders[o].refund == Due(x.price, b) <==> Computable(x.price, b))
              && d.orders[o].refund <= Due(x.price, b)
            else if x.online then Became(db, d, o, RefundPending, x.price, 0, 0)
            else if w.available + w.held + x.price <= MONEY_LIMIT then Became(db, d, o, Refunded, x.price, x.price, 0)
            else d == db
  {
    ReachableInv(es, db);
    BusyIsActive(db, o);
    var x := db.orders[o];
    assert BookFine(db, x.user) && OrderFine(db, o, x);
    RefundAmountExactly(x.price, b);
    if x.state.Completed? && !Busy(db, o) && standing.Queued? {
      var amount := RefundAmount(x.price, Whole);
      assert amount == x.price;
      SettleBecomes(db, o, x.(state := if x.online then RefundPending else Refunded, refund := amount), BalancePaid(x), Refund(o), RefundKind, amount, 0);
    }
  }

  /** An order under refund keeps its user, its price and the amount, until it is refunded. */
  predicate SameRefund(x: Order, y: Order)
  {
    && y == x.(state := y.state) && y.state in {Refunding, RefundPending, Refunded}
  }

  lemma OwnRefundStays(db: DB, o: OrderId, action: Action)
    requires o in db.orders && db.orders[o].state in {Refunding, RefundPending, Refunded} && (action.AskRefund? ==> ValidBasis(action.basis))
    ensures o in ActOn(db, o, action).orders && SameRefund(db.orders[o], ActOn(db, o, action).orders[o])
  {
  }

  lemma OtherRefundStays(db: DB, p: OrderId, o: OrderId, action: Action)
    requires o in db.orders && p in db.orders && p != o && (action.AskRefund? ==> ValidBasis(action.basis))
    ensures o in ActOn(db, p, action).orders && ActOn(db, p, action).orders[o] == db.orders[o]
  {
  }

  lemma RefundStays(db: DB, e: Event, o: OrderId)
    requires Allowed(e) && o in db.orders && db.orders[o].state in {Refunding, RefundPending, Refunded}
    ensures o in Step(db, e).orders && SameRefund(db.orders[o], Step(db, e).orders[o])
  {
    match e
    case Act(p, action) =>
      if p == o {
        OwnRefundStays(db, o, action);
      } else if p in db.orders {
        OtherRefundStays(db, p, o, action);
      }
    case _ =>
  }

  lemma {:induction false} RefundStaysOn(s: DB, es: seq<Event>, t: DB, o: OrderId)
    requires Reaches(s, es, t) && o in s.orders && s.orders[o].state in {Refunding, RefundPending, Refunded}
    ensures o in t.orders && SameRefund(s.orders[o], t.orders[o])
    decreases |es|
  {
    if es != [] {
      RefundStays(s, es[0], o);
      RefundStaysOn(Step(s, es[0]), es[1..], t, o);
    }
  }

  /** A refund under way: it is paid exactly if the entitlement still comes from the order and the balance
      has room, and then by the recorded amount. */
  lemma RefundIsPaid(db: DB, o: OrderId, sourced: bool)
    requires Inv(db) && o in db.orders && db.orders[o].state.Refunding? && BalancePaid(db.orders[o])
    ensures var x, d := db.orders[o], Step(db, Act(o, PayRefund(sourced)));
            var w := WalletOf(db, x.user);
            if sourced && x.refund <= 0 then Became(db, d, o, Refunded, x.refund, 0, 0)
            else if sourced && w.available + w.held + x.refund <= MONEY_LIMIT then Became(db, d, o, Refunded, x.refund, x.refund, 0)
            else d == db
  {
    var x := db.orders[o];
    assert BookFine(db, x.user) && OrderFine(db, o, x);
    if sourced {
      SettleBecomes(db, o, x.(state := Refunded), x.refund > 0, Refund(o), RefundKind, x.refund, 0);
    }
  }

  lemma AskedRefund(es: seq<Event>, db: DB, o: OrderId, b: Basis, fs: seq<Event>, w: DB)
    requires Reaches(Empty, es, db) && o in db.orders && ValidBasis(b) && db.orders[o].state.Completed? && !Busy(db, o)
    requires Reaches(Step(db, Act(o, AskRefund(Active, b))), fs, w)
    ensures Inv(w) && o in w.orders && 0 <= db.orders[o].price
    ensures w.orders[o] == db.orders[o].(state := w.orders[o].state, refund := w.orders[o].refund)
    ensures w.orders[o].refund == Due(db.orders[o].price, b) <==> Computable(db.orders[o].price, b)
    ensures w.orders[o].refund != Due(db.orders[o].price, b) ==> w.orders[o].refund < Due(db.orders[o].price, b) && 0 < Due(db.orders[o].price, b)
  {
    var e := Act(o, AskRefund(Active, b));
    ReachableInv(es, db);
    StepKeepsInv(db, e);
    RunKeepsInv(Step(db, e), fs, w);
    RefundStarts(es, db, o, Active, b);
    RefundStaysOn(Step(db, e), fs, w, o);
    RefundAmountExactly(db.orders[o].price, b);
  }

  lemma DueIsNat(price: nat, b: Basis)
    requires ValidBasis(b)
    ensures 0 <= Due(price, b)
  {
    ProductIsNat(price, Part(b));
    DivideNat(Product(price, Part(b)), Total(b));
  }

  lemma DivideNat(x: nat, d: nat)
    requires d > 0
    ensures 0 <= x / d
  {
  }

  /** From the request to the wallet, whatever happens in between: a refund that is paid to the balance adds
      exactly the share due for the unused part if and only if that is computable; otherwise it adds less. */
  lemma RefundPaysShare(es: seq<Event>, db: DB, o: OrderId, b: Basis, fs: seq<Event>, w: DB, sourced: bool)
    requires Reaches(Empty, es, db) && o in db.orders && ValidBasis(b)
    requires db.orders[o].state.Completed? && BalancePaid(db.orders[o]) && !Busy(db, o)
    requires Reaches(Step(db, Act(o, AskRefund(Active, b))), fs, w) && o in w.orders && w.orders[o].state.Refunding?
    ensures 0 <= db.orders[o].price
    ensures var f, u, p := Step(w, Act(o, PayRefund(sourced))), db.orders[o].user, db.orders[o].price;
            f.orders[o].state.Refunded? ==>
              var gained := WalletOf(f, u).available - WalletOf(w, u).available;
              && (gained == Due(p, b) <==> Computable(p, b)) && 0 <= gained <= Due(p, b)
              && WalletOf(f, u).held == WalletOf(w, u).held
  {
    AskedRefund(es, db, o, b, fs, w);
    RefundIsPaid(w, o, sourced);
    DueIsNat(db.orders[o].price, b);
  }
}
