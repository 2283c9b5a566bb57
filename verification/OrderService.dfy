// Creating and refunding orders. Each opens a transaction of its own, but the wallet call
// inside commits separately, before the outer commit.

module Orders {
  import opened Prelude
  import opened JsValues
  import opened WalletTables
  import opened Fifo
  import opened Points
  import Decimal

  datatype Status = PENDING | PAID | REFUNDED
  datatype Product = Product(id: string, appId: string, isActive: bool, price: int)
  datatype Order = Order(id: string, appId: string, userId: string, productId: string, quantity: int, total: int,
                         status: Status, refType: string, refId: string)

  datatype OrderError = BadQuantity | ProductNotFound | ProductInactive | OrderNotFound | NotPaid
                      | BadRefundAmount | WalletRefused(failure: Failure) | CommitFailed
  datatype Result = Ok(order: Order) | Err(error: OrderError)

  datatype Cart = Cart(appId: string, userId: string, quantity: int, refType: string, refId: string)

  // The row a creation would insert, or why there is none.
  function NewOrder(id: string, product: Option<Product>, cart: Cart): Result {
    if cart.quantity <= 0 then Err(BadQuantity)
    else if product.None? then Err(ProductNotFound)
    else if !product.value.isActive then Err(ProductInactive)
    else if product.value.appId != cart.appId then Err(ProductNotFound)
    else Ok(Order(id, cart.appId, cart.userId, product.value.id, cart.quantity,
                  product.value.price * cart.quantity, PENDING, cart.refType, cart.refId))
  }

  function AmountOf(n: int): Amount { Amount(Decimal.Text(n), n) }
  function DebitKey(id: string): string { "order:" + id + ":debit" }
  function RefundKey(id: string): string { "order:" + id + ":refund" }

  function DebitRequest(o: Order, key: Field<string>): Request {
    Request(DEBIT, o.appId,
            Fields(AmountOf(o.total), o.userId, "BUY_ITEM", "order", o.id),
            if Truthy(key) then Val(DebitKey(o.id)) else Undefined)
  }

  // A refund is always of the whole amount.
  function RefundRequest(o: Order, refType: Field<string>, refId: Field<string>, key: Field<string>): Request {
    Request(CREDIT, o.appId,
            Fields(AmountOf(o.total), o.userId, "REFUND",
                   Or(refType, Val("order_refund")).value, Or(refId, Val(o.id)).value),
            if Truthy(key) then Val(RefundKey(o.id)) else Undefined)
  }

  // What a caller gave, or what stands in for nothing and the empty text.
  ghost function Given(f: Field<string>, default: string): string {
    if f.Val? && f.value != "" then f.value else default
  }

  predicate Answered(out: Outcome) { out.Done? || out.Replay? }

  // --- the service, one call at a time --------------------------------------------------

  datatype Store = Store(orders: map<string, Order>, db: Db)

  function Create(s: Store, id: string, product: Option<Product>, cart: Cart, key: Field<string>,
                  balance: int, outerCommits: bool): (Store, Result) {
    var row := NewOrder(id, product, cart);
    if row.Err? then (s, row)
    else
      var (db, out) := Debit(s.db, DebitRequest(row.order, key), balance);
      if !Answered(out) then (s.(db := db), Err(WalletRefused(out.failure)))
      else if !outerCommits then (s.(db := db), Err(CommitFailed))
      else
        var paid := row.order.(status := PAID);
        (Store(s.orders[id := paid], db), Ok(paid))
  }

  function Refund(s: Store, id: string, refType: Field<string>, refId: Field<string>, key: Field<string>,
                  balance: int, lotId: nat, now: int, outerCommits: bool): (Store, Result) {
    if id !in s.orders then (s, Err(OrderNotFound))
    else if s.orders[id].status != PAID then (s, Err(NotPaid))
    else if s.orders[id].total <= 0 then (s, Err(BadRefundAmount))
    else
      var (db, out) := Credit(s.db, RefundRequest(s.orders[id], refType, refId, key), balance, lotId, now);
      if !Answered(out) then (s.(db := db), Err(WalletRefused(out.failure)))
      else if !outerCommits then (s.(db := db), Err(CommitFailed))
      else
        var refunded := s.orders[id].(status := REFUNDED);
        (Store(s.orders[id := refunded], db), Ok(refunded))
  }

  class OrderService {
    var orders: map<string, Order>
    const wallet: PointService

    constructor (wallet: PointService)
      ensures this.wallet == wallet && orders == map[]
    {
      this.wallet := wallet;
      orders := map[];
    }

    ghost function State(): Store
      reads this, wallet
    {
      Store(orders, wallet.State())
    }

    // `id` is the generated row id; `outerCommits` says whether the outer transaction's own
    // writes make it, which is decided after the wallet has committed.
    method CreateOrder(id: string, product: Option<Product>, cart: Cart, key: Field<string>,
                       unlockedBalance: int, outerCommits: bool) returns (r: Result)
      modifies this, wallet
      ensures (State(), r) == Create(old(State()), id, product, cart, key, unlockedBalance, outerCommits)
    {
      var row := NewOrder(id, product, cart);
      if row.Err? {
        return row;
      }
      var txOrders := orders[id := row.order];
      var out := wallet.DebitWallet(DebitRequest(row.order, key), unlockedBalance);
      if !Answered(out) {
        return Err(WalletRefused(out.failure));
      }
      txOrders := txOrders[id := txOrders[id].(status := PAID)];
      if !outerCommits {
        return Err(CommitFailed);
      }
      assert txOrders == orders[id := row.order.(status := PAID)];
      orders := txOrders;
      return Ok(orders[id]);
    }

    method RefundOrder(id: string, refType: Field<string>, refId: Field<string>, key: Field<string>,
                       unlockedBalance: int, lotId: nat, now: int, outerCommits: bool) returns (r: Result)
      modifies this, wallet
      ensures (State(), r) == Refund(old(State()), id, refType, refId, key, unlockedBalance, lotId, now, outerCommits)
    {
      if id !in orders {
        return Err(OrderNotFound);
      }
      var order := orders[id];
      if order.status != PAID {
        return Err(NotPaid);
      }
      if order.total <= 0 {
        return Err(BadRefundAmount);
      }
      var out := wallet.CreditWallet(RefundRequest(order, refType, refId, key), unlockedBalance, lotId, now);
      if !Answered(out) {
        return Err(WalletRefused(out.failure));
      }
      if !outerCommits {
        return Err(CommitFailed);
      }
      orders := orders[id := order.(status := REFUNDED)];
      return Ok(orders[id]);
    }
  }

  // A creation's ledger entries, column by column.
  ghost predicate BoughtBy(cart: Cart, id: string, total: int, es: seq<Entry>) {
    && EntrySum(es) == total
    && forall e :: e in es ==>
         && e.appId == cart.appId && e.userId == cart.userId && e.direction == DEBIT && e.amount > 0
         && e.reason == "BUY_ITEM" && e.refType == "order" && e.refId == id
  }

  // Every outcome of a creation with a new id has its exact condition. It succeeds exactly
  // when the quantity is positive, the product is there, active and of the cart's app, the
  // total is positive and covered by the balance read and by the balance, and the outer
  // commit works; then the order is there with every column as asked for, PAID. Then, and when
  // only the outer commit fails, the user's queue of points has lost the total and the ledger
  // and, for a non-empty key, the key table say why. Any other refusal changes nothing.
  lemma {:induction false} CreateMeaning(s: Store, id: string, product: Option<Product>, cart: Cart, key: Field<string>,
                    balance: int, outerCommits: bool)
    requires Reconciled(s.db) && Key(cart.appId, "order:" + id + ":debit") !in s.db.keys
    ensures var (s1, r) := Create(s, id, product, cart, key, balance, outerCommits);
      var here := product.Some?;
      var valid := cart.quantity > 0 && here && product.value.isActive && product.value.appId == cart.appId;
      var total := if here then product.value.price * cart.quantity else 0;
      var funded := 0 < total <= balance && total <= Balance(s.db.lots, cart.userId);
      && (r == Err(BadQuantity) <==> cart.quantity <= 0)
      && (r == Err(ProductNotFound) <==>
            cart.quantity > 0 && (!here || (product.value.isActive && product.value.appId != cart.appId)))
      && (r == Err(ProductInactive) <==> cart.quantity > 0 && here && !product.value.isActive)
      && (r == Err(WalletRefused(NotPositive)) <==> valid && total <= 0)
      && (r == Err(WalletRefused(Insufficient)) <==> valid && total > 0 && balance < total)
      && (r == Err(WalletRefused(Shortfall)) <==>
            valid && Balance(s.db.lots, cart.userId) < total <= balance && total > 0)
      && (r == Err(CommitFailed) <==> valid && funded && !outerCommits)
      && (r.Ok? <==> valid && funded && outerCommits)
      && (r.Ok? ==>
            && r.order == Order(id, cart.appId, cart.userId, product.value.id, cart.quantity, total, PAID,
                                cart.refType, cart.refId)
            && s1.orders == s.orders[id := r.order])
      && (r.Err? ==> s1.orders == s.orders)
      && (r.Err? && r.error != CommitFailed ==> s1 == s)
      && (r.Ok? || r == Err(CommitFailed) ==>
            && UnitQueue(s1.db.lots, cart.userId) == UnitQueue(s.db.lots, cart.userId)[total..]
            && s.db.ledger <= s1.db.ledger
            && var es := s1.db.ledger[|s.db.ledger|..];
               && BoughtBy(cart, id, total, es)
               && s1.db.keys == (if key.Val? && key.value != ""
                                 then s.db.keys[Key(cart.appId, "order:" + id + ":debit") :=
                                        KeyRow(Fields(Amount(Decimal.Text(total), total), cart.userId,
                                                      "BUY_ITEM", "order", id), Many(es))]
                                 else s.db.keys))
  {
    hide Reconciled, Balance, UnitQueue, DebitLots, Debit, EntrySum;
    var row := NewOrder(id, product, cart);
    if row.Ok? {
      DebitMeaning(s.db, DebitRequest(row.order, key), balance);
      var (db, out) := Debit(s.db, DebitRequest(row.order, key), balance);
      if out.Done? {
        assert db.ledger[|s.db.ledger|..] == out.response.entries;
        forall e | e in out.response.entries
          ensures e.appId == cart.appId && e.userId == cart.userId && e.direction == DEBIT && e.amount > 0
          ensures e.reason == "BUY_ITEM" && e.refType == "order" && e.refId == id
        {
          var i :| 0 <= i < |out.response.entries| && out.response.entries[i] == e;
          assert DebitRow(DebitRequest(row.order, key), balance, out.response.entries, i);
        }
      }
    }
  }

  // The client's key does not make creating an order repeatable: the wallet key is made from
  // the new row's id. The same keyed request sent again buys, and charges, a second time
  // exactly when what the first left is enough.
  lemma {:induction false} CreationRepeats(s: Store, id: string, id2: string, product: Product, cart: Cart, key: string)
    requires Reconciled(s.db) && id != id2
    requires product.isActive && product.appId == cart.appId && cart.quantity > 0
    requires Key(cart.appId, "order:" + id + ":debit") !in s.db.keys
    requires Key(cart.appId, "order:" + id2 + ":debit") !in s.db.keys
    requires 0 < product.price * cart.quantity <= Balance(s.db.lots, cart.userId)
    ensures var user, total := cart.userId, product.price * cart.quantity;
      var (s1, r1) := Create(s, id, Some(product), cart, Val(key), Balance(s.db.lots, user), true);
      var (s2, r2) := Create(s1, id2, Some(product), cart, Val(key), Balance(s1.db.lots, user), true);
      && r1.Ok? && (r2.Ok? <==> 2 * total <= Balance(s.db.lots, user))
      && (r2.Ok? ==>
            && s2.orders == s.orders[id := r1.order][id2 := r2.order] && r2.order == r1.order.(id := id2)
            && UnitQueue(s2.db.lots, user) == UnitQueue(s.db.lots, user)[2 * total..])
  {
    hide Reconciled, Balance, UnitQueue, Create, BoughtBy;
    var user, total := cart.userId, product.price * cart.quantity;
    var (s1, r1) := Create(s, id, Some(product), cart, Val(key), Balance(s.db.lots, user), true);
    CreateMeaning(s, id, Some(product), cart, Val(key), Balance(s.db.lots, user), true);
    CreateKeepsAgreement(s, id, Some(product), cart, Val(key), Balance(s.db.lots, user), true);
    KeysDiffer(id, id2);
    QueueLength(s.db.lots, user);
    QueueLength(s1.db.lots, user);
    CreateMeaning(s1, id2, Some(product), cart, Val(key), Balance(s1.db.lots, user), true);
  }

  lemma {:induction false} CreateKeepsAgreement(s: Store, id: string, product: Option<Product>, cart: Cart,
                    key: Field<string>, balance: int, outerCommits: bool)
    requires Reconciled(s.db)
    ensures Reconciled(Create(s, id, product, cart, key, balance, outerCommits).0.db)
  {
    hide Reconciled, Debit;
    var row := NewOrder(id, product, cart);
    if row.Ok? { DebitKeepsAgreement(s.db, DebitRequest(row.order, key), balance); }
  }

  lemma QueueLength(lots: seq<Lot>, user: string)
    ensures |UnitQueue(lots, user)| == Balance(lots, user)
  {
  }

  // A refund's one ledger entry, column by column.
  ghost function RefundEntry(o: Order, refType: Field<string>, refId: Field<string>, lotId: nat, snapshot: int): Entry {
    Entry(o.appId, o.userId, lotId, CREDIT, o.total, "REFUND", Given(refType, "order_refund"), Given(refId, o.id),
          snapshot)
  }

  // The hashed fields a keyed refund is recorded with.
  ghost function RefundHash(o: Order, refType: Field<string>, refId: Field<string>): Fields {
    Fields(Amount(Decimal.Text(o.total), o.total), o.userId, "REFUND",
           Given(refType, "order_refund"), Given(refId, o.id))
  }

  // A first refund's effect on the wallet.
  ghost predicate RefundWritten(db: Db, db1: Db, o: Order, refType: Field<string>, refId: Field<string>,
                                key: Field<string>, balance: int, lotId: nat, now: int) {
    var e := RefundEntry(o, refType, refId, lotId, balance + o.total);
    && db1.ledger == db.ledger + [e]
    && Lookup(db1.lots, lotId) == Some(Lot(lotId, o.appId, o.userId, o.total, o.total, now))
    && (forall u :: Balance(db1.lots, u) == Balance(db.lots, u) + (if u == o.userId then o.total else 0))
    && db1.keys == (if key.Val? && key.value != ""
                    then db.keys[Key(o.appId, "order:" + o.id + ":refund") :=
                           KeyRow(RefundHash(o, refType, refId), Single(e))]
                    else db.keys)
  }

  lemma {:induction false} RefundCredits(db: Db, o: Order, refType: Field<string>, refId: Field<string>,
                    key: Field<string>, balance: int, lotId: nat, now: int)
    requires Lookup(db.lots, lotId).None? && o.total > 0
    ensures var (db1, out) := Credit(db, RefundRequest(o, refType, refId, key), balance, lotId, now);
      var k := Key(o.appId, "order:" + o.id + ":refund");
      var used := key.Val? && key.value != "" && k in db.keys;
      var agrees := used ==> db.keys[k].hash == RefundHash(o, refType, refId);
      && (Answered(out) <==> agrees) && (!agrees ==> out == Error(KeyReused))
      && (used ==> db1 == db)
      && (!used ==> RefundWritten(db, db1, o, refType, refId, key, balance, lotId, now))
  {
    hide Balance, Lookup, Credit;
    CreditMeaning(db, RefundRequest(o, refType, refId, key), balance, lotId, now);
  }

  // What a refund comes to; every outcome has its exact condition. It succeeds exactly when
  // the order is there, PAID and worth something, a non-empty key is unused or was recorded
  // with the same fields, and the outer commit works. Unless the key was recorded, the owner
  // gains a lot of the total and nobody else anything, the ledger gains one CREDIT entry with
  // the reference given or its default, and the key is recorded. A failed outer commit leaves
  // the order PAID; every other refusal changes nothing, and an order that is not PAID, so one
  // already REFUNDED, is always refused.
  lemma {:induction false} RefundMeaning(s: Store, id: string, refType: Field<string>, refId: Field<string>,
                    key: Field<string>, balance: int, lotId: nat, now: int, outerCommits: bool)
    requires Lookup(s.db.lots, lotId).None?
    ensures var (s1, r) := Refund(s, id, refType, refId, key, balance, lotId, now, outerCommits);
      && (Reconciled(s.db) ==> Reconciled(s1.db))
      && (r == Err(OrderNotFound) <==> id !in s.orders)
      && (id in s.orders ==>
            var o := s.orders[id];
            var keyed, k := key.Val? && key.value != "", Key(o.appId, "order:" + o.id + ":refund");
            var used, refundable := keyed && k in s.db.keys, o.status == PAID && o.total > 0;
            var agrees := used ==> s.db.keys[k].hash == RefundHash(o, refType, refId);
            && (r == Err(NotPaid) <==> o.status != PAID)
            && (r == Err(BadRefundAmount) <==> o.status == PAID && o.total <= 0)
            && (r == Err(WalletRefused(KeyReused)) <==> refundable && !agrees)
            && (r == Err(CommitFailed) <==> refundable && agrees && !outerCommits)
            && (r.Ok? <==> refundable && agrees && outerCommits)
            && (r.Ok? ==> s1.orders == s.orders[id := r.order] && r.order == o.(status := REFUNDED))
            && (used ==> s1.db == s.db)
            && ((r.Ok? || r == Err(CommitFailed)) && !used ==>
                  RefundWritten(s.db, s1.db, o, refType, refId, key, balance, lotId, now)))
      && (r.Err? ==> s1.orders == s.orders)
      && (r.Err? && r.error != CommitFailed ==> s1 == s)
  {
    hide Reconciled, Credit, RefundRequest, RefundHash, RefundWritten, Lookup;
    if id in s.orders && s.orders[id].status == PAID && s.orders[id].total > 0 {
      var req := RefundRequest(s.orders[id], refType, refId, key);
      RefundCredits(s.db, s.orders[id], refType, refId, key, balance, lotId, now);
      if Reconciled(s.db) { CreditKeepsAgreement(s.db, req, balance, lotId, now); }
    }
  }

  // --- a refund interrupted between its two commits -------------------------------------

  // If a keyed refund credits the wallet and then fails to commit, asking again with any
  // key and the same reference completes it and credits nothing more; with another
  // reference it is refused and nothing changes.
  lemma {:induction false} RefundAgain(s: Store, id: string, refType: Field<string>, refId: Field<string>,
          key: Field<string>,
                    balance: int, lotId: nat, now: int,
                    refType2: Field<string>, refId2: Field<string>, key2: Field<string>,
                    balance2: int, lotId2: nat, now2: int)
    requires key.Val? && key.value != "" && key2.Val? && key2.value != ""
    requires Refund(s, id, refType, refId, key, balance, lotId, now, false).1 == Err(CommitFailed)
    ensures var s1 := Refund(s, id, refType, refId, key, balance, lotId, now, false).0;
      var (s2, r2) := Refund(s1, id, refType2, refId2, key2, balance2, lotId2, now2, true);
      && s1.orders == s.orders && s2.db == s1.db
      && (if Given(refType, "order_refund") == Given(refType2, "order_refund")
             && Given(refId, s.orders[id].id) == Given(refId2, s.orders[id].id)
          then r2 == Ok(s.orders[id].(status := REFUNDED)) && s2.orders == s.orders[id := r2.order]
          else r2 == Err(WalletRefused(KeyReused)) && s2 == s1)
  {
  }

  // The keys of different orders differ.
  lemma {:induction false} KeysDiffer(a: string, b: string)
    requires a != b
    ensures DebitKey(a) != DebitKey(b) && RefundKey(a) != RefundKey(b)
  {
    Unwrap("order:", a, ":debit");
    Unwrap("order:", b, ":debit");
    Unwrap("order:", a, ":refund");
    Unwrap("order:", b, ":refund");
  }

  lemma Unwrap(before: string, mid: string, after: string)
    ensures (before + mid + after)[|before|..|before + mid + after| - |after|] == mid
  {
  }
}
