/** Every order step keeps the ledger and the order invariant. */
module LedgerOrders {
  import opened Common
  import opened Sums
  import opened LedgerModel
  import opened LedgerSafety

  /** No other order of the user is active, if this one is. */
  ghost predicate SoleActive(orders: map<OrderId, Order>, o: OrderId, x: Order)
  {
    ActiveState(x.state) ==> forall p :: p in orders && p != o && orders[p].user == x.user ==> !ActiveState(orders[p].state)
  }

  lemma StaysSole(orders: map<OrderId, Order>, o: OrderId, x: Order)
    requires OneActive(orders) && o in orders && orders[o].user == x.user && ActiveState(orders[o].state)
    ensures SoleActive(orders, o, x)
  {
  }

  lemma HeldSumSave(orders: map<OrderId, Order>, o: OrderId, x: Order, u: UserId)
    requires o in orders ==> orders[o].user == x.user
    ensures HeldSum(orders[o := x], u)
            == HeldSum(orders, u) + if x.user == u then HeldFor(x) - (if o in orders then HeldFor(orders[o]) else 0) else 0
  {
    var next := orders[o := x];
    var f, g := HeldOf(orders, u), HeldOf(next, u);
    if o in orders {
      assert next.Keys == orders.Keys;
      SumChangeOne(orders.Keys, f, g, o);
    } else {
      assert next.Keys == orders.Keys + {o};
      SumInsert(orders.Keys, g, o);
      SumCongruence(orders.Keys, f, g);
    }
  }

  // ------------------------------------------------------------------ without a posting

  /** An order is saved under another state, or created, while no money moves. */
  lemma SaveKeepsInv(db: DB, o: OrderId, x: Order)
    requires Inv(db)
    requires o in db.orders ==> db.orders[o].user == x.user
    requires OrderFine(db, o, x)
    requires HeldFor(x) == if o in db.orders then HeldFor(db.orders[o]) else 0
    requires SoleActive(db.orders, o, x)
    ensures Inv(SaveOrder(db, o, x))
  {
    var d := SaveOrder(db, o, x);
    forall u ensures BookFine(d, u) {
      assert BookFine(db, u);
    }
    forall u ensures HeldMatches(d, u) {
      assert HeldMatches(db, u);
      HeldSumSave(db.orders, o, x, u);
    }
    forall p | p in d.orders ensures OrderFine(d, p, d.orders[p]) {
      if p != o {
        assert OrderFine(db, p, db.orders[p]);
      }
    }
    forall u, p ensures Foreign(d, u, p) {
      assert Foreign(db, u, p);
    }
    forall p ensures Fresh(d, p) {
      assert Fresh(db, p);
    }
  }

  // ------------------------------------------------------------------ with a posting

  lemma KeySetAppend(m: seq<Movement>, x: Movement)
    ensures KeySet(m + [x]) == KeySet(m) + {x.key}
  {
    assert forall i :: 0 <= i < |m| ==> (m + [x])[i] == m[i];
    assert (m + [x])[|m|] == x;
  }

  /** Another order does not notice a posting. */
  lemma OtherOrderFine(db: DB, d: DB, u: UserId, o: OrderId, key: EventKey, a: int, h: int, p: OrderId, x: Order)
    requires Posted(db, d, u, key, a, h) && Concerns(key, o) && p != o && OrderFine(db, p, x)
    ensures OrderFine(d, p, x)
  {
    assert !Concerns(key, p);
    assert d.keys * KeysOf(p) == db.keys * KeysOf(p);
    assert Movements(History(d, x.user), x.user, p) == Movements(History(db, x.user), x.user, p);
  }

  lemma PostedOrderFine(db: DB, d: DB, o: OrderId, x: Order, y: Order, key: EventKey, a: int, h: int)
    requires Posted(db, d, y.user, key, a, h) && key in KeysOf(o) && OrderFine(db, o, x)
    requires x.user == y.user && 0 <= y.price <= MONEY_LIMIT && y.refund <= y.price
    requires TrailFits(Movements(History(db, x.user), x.user, o) + [Movement(key, a, h)], o, y)
    ensures OrderFine(d, o, y)
  {
    assert Concerns(key, o);
    KeySetAppend(Movements(History(db, x.user), x.user, o), Movement(key, a, h));
    assert d.keys * KeysOf(o) == db.keys * KeysOf(o) + {key};
  }

  lemma PostedForeign(db: DB, d: DB, u: UserId, o: OrderId, key: EventKey, a: int, h: int, v: UserId, p: OrderId)
    requires Posted(db, d, u, key, a, h) && Foreign(db, v, p)
    requires Concerns(key, o) ==> o in db.orders && db.orders[o].user == u
    requires Concerns(key, p) ==> p == o
    ensures Foreign(d, v, p)
  {
    if v == u && Concerns(key, p) {
    } else if v == u {
      assert Movements(History(d, u), u, p) == Movements(History(db, u), u, p);
    }
  }

  lemma BookSame(db: DB, d: DB, v: UserId)
    requires History(d, v) == History(db, v) && WalletOf(d, v) == WalletOf(db, v) && (v in d.wallets <==> v in db.wallets)
    requires BookFine(db, v)
    ensures BookFine(d, v)
  {
  }

  lemma PostAndSaveBooks(db: DB, d: DB, o: OrderId, y: Order, key: EventKey, a: int, h: int, v: UserId)
    requires BookFine(db, v) && HeldMatches(db, v) && o in db.orders && db.orders[o].user == y.user
    requires Posted(db, d, y.user, key, a, h)
    requires h == HeldFor(y) - HeldFor(db.orders[o])
    ensures BookFine(SaveOrder(d, o, y), v) && HeldMatches(SaveOrder(d, o, y), v)
  {
    if v != y.user { BookSame(db, d, v); }
    HeldSumSave(db.orders, o, y, v);
  }

  lemma PostAndSaveOrders(db: DB, d: DB, o: OrderId, y: Order, key: EventKey, a: int, h: int, p: OrderId)
    requires o in db.orders && p in db.orders && OrderFine(db, p, db.orders[p])
    requires Posted(db, d, y.user, key, a, h) && key in KeysOf(o) && OrderFine(d, o, y)
    ensures OrderFine(SaveOrder(d, o, y), p, SaveOrder(d, o, y).orders[p])
  {
    if p != o {
      OtherOrderFine(db, d, y.user, o, key, a, h, p, db.orders[p]);
    }
  }

  lemma PostAndSaveForeign(db: DB, d: DB, o: OrderId, y: Order, key: EventKey, a: int, h: int, v: UserId, p: OrderId)
    requires o in db.orders && db.orders[o].user == y.user && Foreign(db, v, p) && Fresh(db, p)
    requires Posted(db, d, y.user, key, a, h) && key in KeysOf(o)
    ensures Foreign(SaveOrder(d, o, y), v, p) && Fresh(SaveOrder(d, o, y), p)
  {
    PostedForeign(db, d, y.user, o, key, a, h, v, p);
  }

  /** A posting and the order's new state, committed together. */
  lemma PostAndSaveKeepsInv(db: DB, d: DB, o: OrderId, y: Order, key: EventKey, a: int, h: int)
    requires Inv(db) && o in db.orders && db.orders[o].user == y.user
    requires Posted(db, d, y.user, key, a, h) && key in KeysOf(o)
    requires OrderFine(d, o, y)
    requires h == HeldFor(y) - HeldFor(db.orders[o])
    requires SoleActive(db.orders, o, y)
    ensures Inv(SaveOrder(d, o, y))
  {
    var r := SaveOrder(d, o, y);
    forall v ensures BookFine(r, v) && HeldMatches(r, v) {
      PostAndSaveBooks(db, d, o, y, key, a, h, v);
    }
    forall p | p in r.orders ensures OrderFine(r, p, r.orders[p]) {
      PostAndSaveOrders(db, d, o, y, key, a, h, p);
    }
    forall v, p ensures Foreign(r, v, p) && Fresh(r, p) {
      PostAndSaveForeign(db, d, o, y, key, a, h, v, p);
    }
    forall p ensures Fresh(r, p) {
      PostAndSaveForeign(db, d, o, y, key, a, h, 0, p);
    }
  }

  /** The two ways a settling step can end: it commits as a whole, or it leaves everything alone. */
  lemma SettleKeepsInv(db: DB, o: OrderId, y: Order, due: bool, key: EventKey, kind: Kind, a: int, h: int)
    requires Inv(db) && o in db.orders && db.orders[o].user == y.user
    requires key in KeysOf(o) && (a != 0 || h != 0 || !due)
    requires 0 <= y.price <= MONEY_LIMIT && y.refund <= y.price
    requires var m := Movements(History(db, y.user), y.user, o);
             TrailFits(if due then m + [Movement(key, a, h)] else m, o, y)
    requires (if due then h else 0) == HeldFor(y) - HeldFor(db.orders[o])
    requires SoleActive(db.orders, o, y)
    ensures Inv(Settle(db, o, y, due, key, kind, a, h))
  {
    assert OrderFine(db, o, db.orders[o]);
    if !due {
      SaveKeepsInv(db, o, y);
    } else if PostMoney(db, y.user, key, kind, a, h).Some? {
      assert BookFine(db, y.user);
      PostKeepsBooks(db, y.user, key, kind, a, h);
      var d := PostMoney(db, y.user, key, kind, a, h).value;
      PostedOrderFine(db, d, o, db.orders[o], y, key, a, h);
      PostAndSaveKeepsInv(db, d, o, y, key, a, h);
    }
  }
}
