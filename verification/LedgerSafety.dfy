/** What every posting keeps, and what every order step keeps. */
module LedgerSafety {
  import opened Common
  import opened Sums
  import opened LedgerModel

  // ------------------------------------------------------------------ readings of the ledger

  function Entry(t: Txn, a: Account): int { if a in t.entries then t.entries[a] else 0 }

  /** The sum of an account's entries over a history. */
  function Balance(history: seq<Txn>, a: Account): int
    decreases |history|
  {
    if history == [] then 0 else Balance(history[..|history| - 1], a) + Entry(history[|history| - 1], a)
  }

  ghost function Amounts(t: Txn): Account -> int { a => Entry(t, a) }

  /** Double entry: at least two rows, none of them empty, summing to zero, on the user's own accounts. */
  ghost predicate TxnFine(t: Txn, u: UserId)
  {
    && Sum(t.entries.Keys, Amounts(t)) == 0
    && |t.entries| >= 2
    && (forall a :: a in t.entries ==> t.entries[a] != 0)
    && t.entries.Keys <= {Available(u), Held(u), System(t.kind)}
  }

  /** Transaction `i` of user `u`, with its checkpoint. */
  ghost predicate PostedFine(history: seq<Txn>, u: UserId, i: nat)
    requires i < |history|
  {
    && TxnFine(history[i], u)
    && history[i].revision == i + 1
    && history[i].available == Balance(history[..i + 1], Available(u))
    && history[i].held == Balance(history[..i + 1], Held(u))
    && WithinLimits(history[i].available, history[i].held)
  }

  ghost predicate BookFine(db: DB, u: UserId)
  {
    var h, w := History(db, u), WalletOf(db, u);
    && (u in db.wallets <==> h != [])
    && w == Wallet(Balance(h, Available(u)), Balance(h, Held(u)), |h|)
    && WithinLimits(w.available, w.held)
    && forall i: nat :: i < |h| ==> PostedFine(h, u, i)
  }

  /** A money movement of one order. */
  datatype Movement = Movement(key: EventKey, available: int, held: int)

  function Concerns(k: EventKey, o: OrderId): bool { !k.Outside? && k.order == o }

  function Movements(history: seq<Txn>, u: UserId, o: OrderId): seq<Movement>
    decreases |history|
  {
    if history == [] then []
    else
      var t := history[|history| - 1];
      Movements(history[..|history| - 1], u, o)
      + if Concerns(t.key, o) then [Movement(t.key, Entry(t, Available(u)), Entry(t, Held(u)))] else []
  }

  // ------------------------------------------------------------------ invariant of orders

  predicate BalancePaid(x: Order) { !x.online && x.price > 0 }

  /** The movements an order has behind it: each at most once, in order, none after a release. */
  predicate TrailFits(m: seq<Movement>, o: OrderId, x: Order)
  {
    var hold := Movement(Hold(o), -x.price, x.price);
    var release := Movement(Release(o), x.price, -x.price);
    var capture := Movement(Capture(o), 0, -x.price);
    if !BalancePaid(x) then m == []
    else match x.state
      case Pending => m == []
      case Expired => m == []
      case Provisioning => m == [hold]
      case Cancelled => m == [] || m == [hold, release]
      case Failed => m == [hold, release]
      case Completed => m == [hold, capture]
      case Refunding => m == [hold, capture]
      case Refunded => m == [hold, capture] + (if x.refund > 0 then [Movement(Refund(o), x.refund, 0)] else [])
      case RefundPending => false
  }

  function KeysOf(o: OrderId): set<EventKey> { {Hold(o), Release(o), Capture(o), Refund(o)} }
  function KeySet(m: seq<Movement>): set<EventKey> { set i | 0 <= i < |m| :: m[i].key }

  predicate OrderFine(db: DB, o: OrderId, x: Order)
  {
    && 0 <= x.price <= MONEY_LIMIT
    && x.refund <= x.price
    && TrailFits(Movements(History(db, x.user), x.user, o), o, x)
    && KeySet(Movements(History(db, x.user), x.user, o)) == db.keys * KeysOf(o)
  }

  /** No history mentions an order of someone else, or no order at all. */
  predicate Foreign(db: DB, u: UserId, o: OrderId)
  {
    (o !in db.orders || db.orders[o].user != u) ==> Movements(History(db, u), u, o) == []
  }

  predicate Fresh(db: DB, o: OrderId) { o !in db.orders ==> db.keys * KeysOf(o) == {} }

  function HeldFor(x: Order): int { if x.state.Provisioning? && !x.online then x.price else 0 }

  ghost function HeldOf(orders: map<OrderId, Order>, u: UserId): OrderId -> int
  {
    o => if o in orders && orders[o].user == u then HeldFor(orders[o]) else 0
  }

  ghost function HeldSum(orders: map<OrderId, Order>, u: UserId): int { Sum(orders.Keys, HeldOf(orders, u)) }

  ghost predicate HeldMatches(db: DB, u: UserId) { WalletOf(db, u).held == HeldSum(db.orders, u) }

  ghost predicate OneActive(orders: map<OrderId, Order>)
  {
    forall a, b ::
      (a in orders && b in orders && orders[a].user == orders[b].user && ActiveState(orders[a].state) && ActiveState(orders[b].state))
      ==> a == b
  }

  ghost predicate Inv(db: DB)
  {
    && (forall u :: BookFine(db, u))
    && (forall o :: o in db.orders ==> OrderFine(db, o, db.orders[o]))
    && (forall u, o :: Foreign(db, u, o))
    && (forall o :: Fresh(db, o))
    && (forall u :: HeldMatches(db, u))
    && OneActive(db.orders)
  }

  // ------------------------------------------------------------------ postings

  /** The three accounts of a posting cancel out. */
  lemma ThreeAccounts(f: Account -> int, keys: set<Account>, x: Account, y: Account, z: Account)
    requires x != y && y != z && x != z && keys <= {x, y, z}
    requires f(x) + f(y) + f(z) == 0
    requires forall k :: k in {x, y, z} && k !in keys ==> f(k) == 0
    ensures Sum(keys, f) == 0
  {
    SumSubset({x, y, z}, keys, f);
    SumRemove({x, y, z}, f, x);
    assert {x, y, z} - {x} == {y, z};
    SumRemove({y, z}, f, y);
    assert {y, z} - {y} == {z};
    SumRemove({z}, f, z);
    assert {z} - {z} == {};
  }

  lemma EntriesAre(t: Txn, u: UserId, a: int, h: int)
    requires t.entries == EntriesOf(u, t.kind, a, h)
    ensures Entry(t, Available(u)) == a && Entry(t, Held(u)) == h && Entry(t, System(t.kind)) == -(a + h)
    ensures t.entries.Keys <= {Available(u), Held(u), System(t.kind)} && forall k :: k in t.entries ==> t.entries[k] != 0
  {
  }

  lemma EntriesFine(t: Txn, u: UserId, a: int, h: int)
    requires (a != 0 || h != 0) && t.entries == EntriesOf(u, t.kind, a, h)
    ensures TxnFine(t, u) && Entry(t, Available(u)) == a && Entry(t, Held(u)) == h
  {
    EntriesAre(t, u, a, h);
    ThreeAccounts(Amounts(t), t.entries.Keys, Available(u), Held(u), System(t.kind));
    TwoRows(u, t.kind, a, h);
  }

  lemma TwoRows(u: UserId, kind: Kind, a: int, h: int)
    requires a != 0 || h != 0
    ensures |EntriesOf(u, kind, a, h)| >= 2
  {
    var e := EntriesOf(u, kind, a, h);
    var x, y := if a != 0 then Available(u) else Held(u), if a + h != 0 then System(kind) else Held(u);
    assert x in e && y in e && x != y;
    assert e.Keys == {x} + (e.Keys - {x});
    assert y in e.Keys - {x};
    assert e.Keys - {x} == {y} + (e.Keys - {x} - {y});
    assert |e| == |e.Keys|;
  }

  /** On sound books the checkpoint never refuses: a posting succeeds exactly when the balances stay
      within the limits and its key is new. */
  lemma PostSucceeds(db: DB, u: UserId, key: EventKey, kind: Kind, a: int, h: int)
    requires BookFine(db, u)
    ensures PostMoney(db, u, key, kind, a, h).Some?
            <==> WithinLimits(WalletOf(db, u).available + a, WalletOf(db, u).held + h) && key !in db.keys
  {
    var history := History(db, u);
    if history != [] {
      assert PostedFine(history, u, |history| - 1);
      assert history[..|history|] == history;
    }
  }

  /** The effect of a posting on what the rest of the proof looks at. */
  ghost predicate Posted(db: DB, d: DB, u: UserId, key: EventKey, a: int, h: int)
  {
    && d.orders == db.orders && d.keys == db.keys + {key} && key !in db.keys
    && BookFine(d, u)
    && WalletOf(d, u).held == WalletOf(db, u).held + h && WalletOf(d, u).available == WalletOf(db, u).available + a
    && (forall v :: v != u ==> History(d, v) == History(db, v) && WalletOf(d, v) == WalletOf(db, v) && (v in d.wallets <==> v in db.wallets))
    && (forall o :: Movements(History(d, u), u, o)
                    == Movements(History(db, u), u, o) + (if Concerns(key, o) then [Movement(key, a, h)] else []))
  }

  lemma BookGrows(db: DB, d: DB, u: UserId, t: Txn)
    requires BookFine(db, u)
    requires History(d, u) == History(db, u) + [t] && u in d.wallets
    requires TxnFine(t, u) && t.revision == |History(db, u)| + 1
    requires t.available == WalletOf(db, u).available + Entry(t, Available(u))
    requires t.held == WalletOf(db, u).held + Entry(t, Held(u))
    requires WithinLimits(t.available, t.held)
    requires d.wallets[u] == Wallet(t.available, t.held, t.revision)
    ensures BookFine(d, u)
  {
    var was, h := History(db, u), History(d, u);
    assert h[..|h| - 1] == was;
    forall i: nat | i < |h| ensures PostedFine(h, u, i) {
      if i < |was| {
        assert PostedFine(was, u, i);
        assert h[..i + 1] == was[..i + 1];
      } else {
        assert h[..i + 1] == h;
      }
    }
  }

  /** The state and the transaction a successful posting makes. */
  lemma PostResult(db: DB, u: UserId, key: EventKey, kind: Kind, a: int, h: int) returns (d: DB, t: Txn)
    requires PostMoney(db, u, key, kind, a, h).Some?
    ensures PostMoney(db, u, key, kind, a, h) == Some(d)
    ensures d.orders == db.orders && d.keys == db.keys + {key} && key !in db.keys
    ensures d.wallets == db.wallets[u := Wallet(t.available, t.held, t.revision)]
    ensures d.ledger == db.ledger[u := History(db, u) + [t]]
    ensures t.key == key && t.kind == kind && t.entries == EntriesOf(u, kind, a, h)
    ensures t.amount == if a == -h then h else a + h
    ensures t.available == WalletOf(db, u).available + a && t.held == WalletOf(db, u).held + h
    ensures t.revision == WalletOf(db, u).revision + 1 && WithinLimits(t.available, t.held)
  {
    d := PostMoney(db, u, key, kind, a, h).value;
    t := d.ledger[u][|History(db, u)|];
  }

  lemma OthersUntouched(db: DB, d: DB, u: UserId, w: Wallet, history: seq<Txn>, v: UserId)
    requires d.wallets == db.wallets[u := w] && d.ledger == db.ledger[u := history] && v != u
    ensures History(d, v) == History(db, v) && WalletOf(d, v) == WalletOf(db, v) && (v in d.wallets <==> v in db.wallets)
  {
  }

  lemma PostKeepsBooks(db: DB, u: UserId, key: EventKey, kind: Kind, a: int, h: int)
    requires BookFine(db, u) && (a != 0 || h != 0)
    requires PostMoney(db, u, key, kind, a, h).Some?
    ensures Posted(db, PostMoney(db, u, key, kind, a, h).value, u, key, a, h)
  {
    var d, t := PostResult(db, u, key, kind, a, h);
    EntriesFine(t, u, a, h);
    BookGrows(db, d, u, t);
    forall o
      ensures Movements(History(d, u), u, o) == Movements(History(db, u), u, o) + (if Concerns(key, o) then [Movement(key, a, h)] else [])
    {
    }
    forall v | v != u
      ensures History(d, v) == History(db, v) && WalletOf(d, v) == WalletOf(db, v) && (v in d.wallets <==> v in db.wallets)
    {
      OthersUntouched(db, d, u, Wallet(t.available, t.held, t.revision), History(db, u) + [t], v);
    }
    PostedFrom(db, d, u, key, a, h, t);
  }

  lemma PostedFrom(db: DB, d: DB, u: UserId, key: EventKey, a: int, h: int, t: Txn)
    requires BookFine(d, u) && d.orders == db.orders && d.keys == db.keys + {key} && key !in db.keys
    requires d.wallets == db.wallets[u := Wallet(t.available, t.held, t.revision)]
    requires t.available == WalletOf(db, u).available + a && t.held == WalletOf(db, u).held + h
    requires forall v :: v != u ==> History(d, v) == History(db, v) && WalletOf(d, v) == WalletOf(db, v) && (v in d.wallets <==> v in db.wallets)
    requires forall o :: Movements(History(d, u), u, o)
                         == Movements(History(db, u), u, o) + (if Concerns(key, o) then [Movement(key, a, h)] else [])
    ensures Posted(db, d, u, key, a, h)
  {
  }
}
