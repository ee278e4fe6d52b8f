/** The ledger code as it runs: the posting, the order actions with money in them, and the full
    reconciliation at startup. */
module LedgerWorker {
  import opened Common
  import opened Sums
  import opened LedgerModel
  import opened LedgerSafety
  import opened LedgerTheorems

  // ------------------------------------------------------------------ the reconciliation's verdict

  ghost function BalanceAt(db: DB, a: Account): UserId -> int { (u: UserId) => Balance(History(db, u), a) }

  /** The sum of an account's entries over all transactions. */
  ghost function AccountSum(db: DB, a: Account): int { Sum(db.ledger.Keys, BalanceAt(db, a)) }

  ghost predicate EntriesBalance(t: Txn) { |t.entries| >= 2 && Sum(t.entries.Keys, Amounts(t)) == 0 }

  ghost predicate UserEntriesBalance(db: DB, u: UserId) { forall t :: t in History(db, u) ==> EntriesBalance(t) }

  predicate WalletFine(db: DB, u: UserId)
  {
    var w := WalletOf(db, u);
    0 <= w.available && 0 <= w.held && w.available + w.held <= MONEY_LIMIT && w.revision == |History(db, u)|
  }

  ghost predicate WalletReconciles(db: DB, u: UserId)
  {
    var w := WalletOf(db, u);
    w.available == AccountSum(db, Available(u)) && w.held == AccountSum(db, Held(u)) && w.held == HeldSum(db.orders, u)
  }

  predicate HoldsWallet(x: Order) { x.state.Provisioning? && !x.online }

  /** validateCommerce passes. */
  ghost predicate Validates(db: DB)
  {
    && (forall u :: u in db.ledger ==> UserEntriesBalance(db, u))
    && (forall u :: u in db.wallets ==> WalletFine(db, u))
    && (forall u :: u in db.ledger && db.ledger[u] != [] ==> u in db.wallets)
    && (forall o :: o in db.orders ==> 0 <= db.orders[o].price <= MONEY_LIMIT)
    && (forall u :: u in db.wallets ==> WalletReconciles(db, u))
    && (forall o :: o in db.orders && HoldsWallet(db.orders[o]) ==> db.orders[o].user in db.wallets)
  }

  /** A free order being provisioned for a user who never had a wallet row. */
  predicate FreeWithoutWallet(db: DB, o: OrderId)
  {
    o in db.orders && HoldsWallet(db.orders[o]) && db.orders[o].price == 0 && db.orders[o].user !in db.wallets
  }

  lemma ForeignEntry(t: Txn, u: UserId, a: Account)
    requires TxnFine(t, u) && (a.Available? || a.Held?)
    requires a.user != u
    ensures Entry(t, a) == 0
  {
    assert a !in {Available(u), Held(u), System(t.kind)};
  }

  lemma {:induction false} ForeignBalance(history: seq<Txn>, u: UserId, a: Account)
    requires forall t :: t in history ==> TxnFine(t, u)
    requires a.Available? || a.Held?
    requires a.user != u
    ensures Balance(history, a) == 0
    decreases |history|
  {
    if history != [] {
      ForeignEntry(history[|history| - 1], u, a);
      ForeignBalance(history[..|history| - 1], u, a);
    }
  }

  /** An account's entries are all in its owner's history. */
  lemma AccountSumIsOwn(db: DB, u: UserId, a: Account)
    requires (forall v :: BookFine(db, v)) && (a == Available(u) || a == Held(u)) && u in db.wallets
    ensures AccountSum(db, a) == Balance(History(db, u), a)
  {
    assert BookFine(db, u);
    forall v | v in db.ledger.Keys && v !in {u} ensures BalanceAt(db, a)(v) == 0 {
      assert BookFine(db, v);
      forall t | t in History(db, v) ensures TxnFine(t, v) {
        var i: nat :| i < |History(db, v)| && History(db, v)[i] == t;
        assert PostedFine(History(db, v), v, i);
      }
      ForeignBalance(History(db, v), v, a);
    }
    SumSubset(db.ledger.Keys, {u}, BalanceAt(db, a));
    SumRemove({u}, BalanceAt(db, a), u);
    assert {u} - {u} == {};
  }

  lemma BookReconciles(db: DB, u: UserId)
    requires Inv(db) && u in db.wallets
    ensures WalletFine(db, u) && WalletReconciles(db, u)
  {
    assert BookFine(db, u) && HeldMatches(db, u);
    AccountSumIsOwn(db, u, Available(u));
    AccountSumIsOwn(db, u, Held(u));
  }

  lemma BookEntries(db: DB, u: UserId)
    requires Inv(db)
    ensures UserEntriesBalance(db, u)
  {
    assert BookFine(db, u);
    forall t | t in History(db, u) ensures EntriesBalance(t) {
      var i: nat :| i < |History(db, u)| && History(db, u)[i] == t;
      assert PostedFine(History(db, u), u, i);
    }
  }

  /** The startup check passes on every reachable ledger, except exactly while a free order is being
      provisioned for a user without a wallet row. */
  lemma ValidatesExactlyWhen(es: seq<Event>, db: DB)
    requires Reaches(Empty, es, db)
    ensures Validates(db) <==> forall o :: !FreeWithoutWallet(db, o)
  {
    EmptyIsInv();
    RunKeepsInv(Empty, es, db);
    forall u | u in db.wallets ensures WalletFine(db, u) && WalletReconciles(db, u) { BookReconciles(db, u); }
    forall u ensures UserEntriesBalance(db, u) { BookEntries(db, u); }
    forall o | o in db.orders
      ensures 0 <= db.orders[o].price <= MONEY_LIMIT
      ensures HoldsWallet(db.orders[o]) && db.orders[o].user !in db.wallets ==> FreeWithoutWallet(db, o)
    {
      HeldCovers(db, o);
    }
    forall u | u in db.ledger && db.ledger[u] != [] ensures u in db.wallets { assert BookFine(db, u); }
  }

  /** The exception is reachable: order a free package on a new account and confirm it. */
  lemma FreeOrderFailsValidation(u: UserId)
    ensures var db := Step(Step(Empty, Create(0, u, 0)), Act(0, Confirm));
            Reaches(Empty, [Create(0, u, 0), Act(0, Confirm)], db) && !Validates(db)
  {
    var a := Step(Empty, Create(0, u, 0));
    var db := Step(a, Act(0, Confirm));
    var es := [Create(0, u, 0), Act(0, Confirm)];
    assert es[1..] == [Act(0, Confirm)] && es[1..][1..] == [];
    assert !HasActive(Empty.orders, u, None);
    assert a.orders == map[0 := Order(u, 0, Pending, false, 0)];
    assert Reaches(db, [], db);
    assert Reaches(a, [Act(0, Confirm)], db);
    assert FreeWithoutWallet(db, 0);
    ValidatesExactlyWhen(es, db);
  }

  // ------------------------------------------------------------------ collected holds

  /** What the loop has collected for user `u` after the orders in `seen`. */
  ghost predicate CollectedFor(orders: map<OrderId, Order>, seen: set<OrderId>, holds: map<UserId, int>, u: UserId)
  {
    && (if u in holds then holds[u] else 0) == Sum(seen, HeldOf(orders, u))
    && (u in holds <==> exists o :: o in seen && o in orders && HoldsWallet(orders[o]) && orders[o].user == u)
  }

  ghost predicate Collected(orders: map<OrderId, Order>, seen: set<OrderId>, holds: map<UserId, int>)
  {
    forall u :: CollectedFor(orders, seen, holds, u)
  }

  lemma CollectOne(orders: map<OrderId, Order>, seen: set<OrderId>, holds: map<UserId, int>, o: OrderId, next: map<UserId, int>)
    requires Collected(orders, seen, holds) && o in orders && o !in seen
    requires var x := orders[o];
             next == if HoldsWallet(x) then holds[x.user := (if x.user in holds then holds[x.user] else 0) + x.price] else holds
    ensures Collected(orders, seen + {o}, next)
  {
    forall u ensures CollectedFor(orders, seen + {o}, next, u) {
      assert CollectedFor(orders, seen, holds, u);
      SumInsert(seen, HeldOf(orders, u), o);
      if u in next && u !in holds {
        assert o in seen + {o};
      }
      if u in holds {
        var p :| p in seen && p in orders && HoldsWallet(orders[p]) && orders[p].user == u;
        assert p in seen + {o};
      }
    }
  }

  lemma CollectedUsers(orders: map<OrderId, Order>, holds: map<UserId, int>)
    requires Collected(orders, orders.Keys, holds)
    ensures forall u :: u in holds <==> exists o :: o in orders && HoldsWallet(orders[o]) && orders[o].user == u
  {
    forall u ensures u in holds <==> exists o :: o in orders && HoldsWallet(orders[o]) && orders[o].user == u {
      assert CollectedFor(orders, orders.Keys, holds, u);
    }
  }

  ghost predicate AllReconcile(db: DB, done: set<UserId>)
  {
    forall u :: u in done ==> WalletReconciles(db, u)
  }

  predicate UsedUp(holds: map<UserId, int>, left: map<UserId, int>, done: set<UserId>)
  {
    left.Keys == holds.Keys - done && forall u :: u in left ==> left[u] == holds[u]
  }

  lemma ExpectedHold(orders: map<OrderId, Order>, holds: map<UserId, int>, left: map<UserId, int>, done: set<UserId>, u: UserId)
    requires Collected(orders, orders.Keys, holds) && UsedUp(holds, left, done) && u !in done
    ensures (if u in left then left[u] else 0) == HeldSum(orders, u)
    ensures UsedUp(holds, left - {u}, done + {u})
  {
    assert CollectedFor(orders, orders.Keys, holds, u);
  }

  // ------------------------------------------------------------------ the store

  class CommerceStore {
    var wallets: map<UserId, Wallet>
    var ledger: map<UserId, seq<Txn>>
    var keys: set<EventKey>
    var orders: map<OrderId, Order>

    function View(): DB
      reads this
    {
      DB(wallets, ledger, keys, orders)
    }

    constructor (db: DB)
      ensures View() == db
    {
      wallets, ledger, keys, orders := db.wallets, db.ledger, db.keys, db.orders;
    }

    /** postMoney. A refusal leaves nothing behind once the transaction rolls back. */
    method PostMoney(u: UserId, key: EventKey, kind: Kind, a: int, h: int) returns (ok: bool)
      modifies this`wallets, this`ledger, this`keys
      ensures LedgerModel.PostMoney(old(View()), u, key, kind, a, h) == if ok then Some(View()) else None
      ensures !ok ==> View() == old(View())
    {
      var fits, next, history, txn := Prepare(wallets, ledger, keys, orders, u, key, kind, a, h);
      if !fits {
        return false;
      }
      wallets := wallets[u := next];
      ledger := ledger[u := history + [txn]];
      keys := keys + {key};
      return true;
    }

    /** The new balances and the row of a posting, unless a check refuses it. */
    static method Prepare(wallets: map<UserId, Wallet>, ledger: map<UserId, seq<Txn>>, keys: set<EventKey>, ghost orders: map<OrderId, Order>,
                          u: UserId, key: EventKey, kind: Kind, a: int, h: int)
      returns (fits: bool, next: Wallet, history: seq<Txn>, txn: Txn)
      ensures LedgerModel.PostMoney(DB(wallets, ledger, keys, orders), u, key, kind, a, h)
              == if fits then Some(DB(wallets[u := next], ledger[u := history + [txn]], keys + {key}, orders)) else None
    {
      var w := if u in wallets then wallets[u] else Wallet(0, 0, 0);
      next := Wallet(w.available + a, w.held + h, w.revision + 1);
      history := if u in ledger then ledger[u] else [];
      var amount := a + h;
      if amount == 0 {
        amount := h;
      }
      txn := Txn(key, next.revision, kind, amount, next.available, next.held, EntriesOf(u, kind, a, h));
      if next.available < 0 || next.available > MONEY_LIMIT || next.held < 0 || next.held > MONEY_LIMIT || next.available + next.held > MONEY_LIMIT {
        return false, next, history, txn;
      }
      var prior := PriorMatches(history, next, a, h);
      fits := prior && key !in keys;
    }

    /** The checkpoint of the previous revision against the balances before this posting. */
    static method PriorMatches(history: seq<Txn>, next: Wallet, a: int, h: int) returns (ok: bool)
      requires next.revision > 0
      ensures ok <==> (if next.revision > 1 then Checkpoint(history, next.revision - 1) else Some((0, 0))) == Some((next.available - a, next.held - h))
    {
      var before := (0, 0);
      if next.revision > 1 {
        var found := Checkpoint(history, next.revision - 1);
        if found.None? {
          return false;
        }
        before := found.value;
      }
      ok := before.0 == next.available - a && before.1 == next.held - h;
    }

    /** The money part of a step, then saveOrder; a failed posting rolls everything back. */
    method Commit(o: OrderId, x: Order, key: EventKey, kind: Kind, due: bool, a: int, h: int) returns (ok: bool)
      modifies this
      ensures View() == Settle(old(View()), o, x, due, key, kind, a, h)
      ensures ok <==> !due || LedgerModel.PostMoney(old(View()), x.user, key, kind, a, h).Some?
    {
      ok := true;
      if due {
        ok := PostMoney(x.user, key, kind, a, h);
      }
      if ok {
        orders := orders[o := x];
      }
    }

    /** The confirm and cancel branches of orderAction: the new state, then the deltas it decided on. */
    method OrderAction(o: OrderId, confirm: bool) returns (ok: bool)
      requires o in orders
      modifies this
      ensures View() == if confirm then ConfirmOrder(old(View()), o) else CancelOrder(old(View()), o)
    {
      var x := orders[o];
      var due, a, h := false, 0, 0;
      var key, kind := Hold(o), HoldKind;
      if confirm {
        if !x.state.Pending? {
          return false;
        }
        x := x.(state := Provisioning);
        if !x.online {
          due, a, h := true, -x.price, x.price;
        }
      } else {
        if !x.state.Pending? && !x.state.Provisioning? {
          return false;
        }
        if x.state.Provisioning? && !x.online {
          due, key, kind, a, h := true, Release(o), ReleaseKind, x.price, -x.price;
        }
        x := x.(state := Cancelled);
      }
      ok := Commit(o, x, key, kind, due && x.price > 0, a, h);
    }

    /** failProvisioning. */
    method FailProvisioning(o: OrderId) returns (ok: bool)
      requires o in orders
      modifies this
      ensures View() == FailOrder(old(View()), o)
    {
      var x := orders[o];
      if !x.state.Provisioning? {
        return false;
      }
      ok := Commit(o, x.(state := Failed), Release(o), ReleaseKind, !x.online && x.price > 0, x.price, -x.price);
    }

    /** The final transaction of fulfilOrder, for an order it read as provisioning or refunding, and a user
        whose account is enabled and whose entitlement comes from the order, or not. */
    method FulfilOrder(o: OrderId, enabled: bool, sourced: bool) returns (ok: bool)
      requires o in orders
      modifies this
      ensures View() == if old(orders[o]).state.Refunding? then FinishRefund(old(View()), o, sourced)
                        else if enabled then CompleteOrder(old(View()), o) else FailOrder(old(View()), o)
    {
      var x := orders[o];
      if x.state.Provisioning? && !enabled {
        ok := Commit(o, x.(state := Failed), Release(o), ReleaseKind, !x.online && x.price > 0, x.price, -x.price);
      } else if x.state.Refunding? {
        if !sourced {
          return false;
        }
        var y := x.(state := Refunded);
        if x.online {
          y := y.(state := RefundPending);
        }
        ok := Commit(o, y, Refund(o), RefundKind, !x.online && x.refund > 0, x.refund, 0);
      } else if x.state.Provisioning? {
        ok := Commit(o, x.(state := Completed), Capture(o), PurchaseKind, !x.online && x.price > 0, 0, -x.price);
      } else {
        ok := false;
      }
    }

    // ---------------------------------------------------------------- reconciliation

    /** The entries of one transaction: at least two, summing to zero. */
    static method CheckEntries(t: Txn) returns (ok: bool)
      ensures ok <==> EntriesBalance(t)
    {
      var total := 0;
      var todo := t.entries.Keys;
      while todo != {}
        invariant todo <= t.entries.Keys
        invariant total + Sum(todo, Amounts(t)) == Sum(t.entries.Keys, Amounts(t))
      {
        var a :| a in todo;
        SumRemove(todo, Amounts(t), a);
        assert Amounts(t)(a) == t.entries[a];
        total := total + t.entries[a];
        todo := todo - {a};
      }
      ok := |t.entries| >= 2 && total == 0;
    }

    method CheckTransactions() returns (ok: bool)
      ensures ok <==> forall u :: u in ledger ==> UserEntriesBalance(View(), u)
    {
      var todo := ledger.Keys;
      while todo != {}
        invariant todo <= ledger.Keys
        invariant forall u :: u in ledger && u !in todo ==> UserEntriesBalance(View(), u)
      {
        var u :| u in todo;
        var n := 0;
        while n < |ledger[u]|
          invariant 0 <= n <= |ledger[u]|
          invariant forall i :: 0 <= i < n ==> EntriesBalance(ledger[u][i])
        {
          var fine := CheckEntries(ledger[u][n]);
          if !fine {
            assert ledger[u][n] in History(View(), u);
            return false;
          }
          n := n + 1;
        }
        todo := todo - {u};
      }
      ok := true;
    }

    /** SELECT SUM(amount) over one account. */
    method SumAccount(a: Account) returns (total: int)
      ensures total == AccountSum(View(), a)
    {
      ghost var db := View();
      total := 0;
      var todo := ledger.Keys;
      ghost var seen: set<UserId> := {};
      while todo != {}
        invariant seen !! todo && seen + todo == ledger.Keys && View() == db
        invariant total == Sum(seen, BalanceAt(db, a))
      {
        var u :| u in todo;
        SumInsert(seen, BalanceAt(db, a), u);
        total := total + Balance(ledger[u], a);
        seen, todo := seen + {u}, todo - {u};
      }
      assert seen == ledger.Keys;
    }

    /** The loop over orders: the open holds of every user, free ones included. */
    static method CollectHolds(orders: map<OrderId, Order>) returns (ok: bool, holds: map<UserId, int>)
      ensures ok <==> forall o :: o in orders ==> 0 <= orders[o].price <= MONEY_LIMIT
      ensures ok ==> Collected(orders, orders.Keys, holds)
    {
      holds := map[];
      var todo := orders.Keys;
      ghost var seen: set<OrderId> := {};
      while todo != {}
        invariant seen !! todo && seen + todo == orders.Keys
        invariant forall o :: o in seen ==> 0 <= orders[o].price <= MONEY_LIMIT
        invariant Collected(orders, seen, holds)
      {
        var o :| o in todo;
        var x := orders[o];
        if x.price < 0 || x.price > MONEY_LIMIT {
          return false, holds;
        }
        ghost var before := holds;
        if x.state.Provisioning? && !x.online {
          holds := holds[x.user := (if x.user in holds then holds[x.user] else 0) + x.price];
        }
        CollectOne(orders, seen, before, o, holds);
        seen, todo := seen + {o}, todo - {o};
      }
      assert seen == orders.Keys;
      ok := true;
    }

    /** The loop over wallets, which uses up the collected holds. */
    method CheckWallets(holds: map<UserId, int>) returns (ok: bool)
      requires Collected(orders, orders.Keys, holds)
      ensures ok <==> (forall u :: u in wallets ==> WalletReconciles(View(), u)) && holds.Keys <= wallets.Keys
    {
      ghost var db := View();
      var left, todo := holds, wallets.Keys;
      while todo != {}
        invariant todo <= db.wallets.Keys && View() == db
        invariant AllReconcile(db, db.wallets.Keys - todo)
        invariant UsedUp(holds, left, db.wallets.Keys - todo)
      {
        var u :| u in todo;
        ExpectedHold(db.orders, holds, left, db.wallets.Keys - todo, u);
        var fine := CheckWallet(u, if u in left then left[u] else 0);
        if !fine {
          return false;
        }
        assert db.wallets.Keys - (todo - {u}) == (db.wallets.Keys - todo) + {u};
        left := left - {u};
        todo := todo - {u};
      }
      assert db.wallets.Keys - todo == db.wallets.Keys;
      ok := left.Keys == {};
    }

    method CheckWallet(u: UserId, expected: int) returns (ok: bool)
      requires u in wallets && expected == HeldSum(orders, u)
      ensures ok <==> WalletReconciles(View(), u)
    {
      var available := SumAccount(Available(u));
      var held := SumAccount(Held(u));
      ok := available == wallets[u].available && held == wallets[u].held && expected == wallets[u].held;
    }

    /** validateCommerce, its ledger part. */
    method ValidateCommerce() returns (ok: bool)
      ensures ok <==> Validates(View())
    {
      ok := CheckTransactions();
      if !ok {
        return false;
      }
      if exists u | u in wallets :: !WalletFine(View(), u) {
        return false;
      }
      if exists u | u in ledger :: ledger[u] != [] && u !in wallets {
        return false;
      }
      var prices, holds := CollectHolds(orders);
      if !prices {
        return false;
      }
      ok := CheckWallets(holds);
      CollectedUsers(orders, holds);
    }
  }
}
