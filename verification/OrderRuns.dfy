// Many orders and refunds at once, over the interleaving wallet, with crashes.
//
// A request under way is an outer transaction whose own writes nobody sees before it
// commits, and one wallet call that moves and commits by itself. The request can vanish at
// any point: its outer transaction rolls back, its wallet call goes on or fails by itself.

module OrderRuns {
  import opened Prelude
  import opened JsValues
  import opened WalletTables
  import opened Points
  import opened Orders
  import Wallet = WalletRuns
  import WalletSafety

  datatype Proc = Creating(order: Order, t: nat) | Refunding(id: string, t: nat)

  // Who made a wallet call.
  datatype Owner =
    | Outside
    | CreateOf(order: Order, product: Product, key: Field<string>)
    | RefundOf(id: string, refType: Field<string>, refId: Field<string>, key: Field<string>)

  datatype State = State(w: Wallet.State, orders: map<string, Order>, procs: map<nat, Proc>, owner: map<nat, Owner>)

  const INIT: State := State(Wallet.INIT, map[], map[], map[])

  datatype Action =
    | Wallet(a: Wallet.Action)                       // some wallet call moves
    | Call(t: nat, req: Request)                     // a wallet call from outside begins
    | StartCreate(p: nat, t: nat, id: string, product: Product, cart: Cart, key: Field<string>)
    | FinishCreate(p: nat)
    | StartRefund(p: nat, t: nat, id: string, refType: Field<string>, refId: Field<string>, key: Field<string>)
    | FinishRefund(p: nat)
    | Crash(p: nat)

  // A generated id is new: no creation used it before and no earlier wallet call names the
  // key made from it.
  ghost predicate FreshId(s: State, id: string) {
    && id !in s.orders
    && (forall t :: t in s.owner && s.owner[t].CreateOf? ==> s.owner[t].order.id != id)
    && (forall t :: t in s.w.txns ==> s.w.txns[t].req.key != Val(DebitKey(id)))
  }

  // The id of an order that is still being created is known to nobody else.
  ghost predicate OutsideMay(s: State, req: Request) {
    forall p :: p in s.procs && s.procs[p].Creating? ==> req.key != Val(DebitKey(s.procs[p].order.id))
  }

  predicate WalletAnswered(s: State, t: nat) {
    t in s.w.txns && s.w.txns[t].pc.Ended? && Answered(s.w.txns[t].pc.outcome)
  }

  ghost predicate Enabled(s: State, a: Action) {
    match a
    case Wallet(b) => !b.Begin? && Wallet.Enabled(s.w, b)
    case Call(t, req) => t !in s.w.txns && OutsideMay(s, req)
    case StartCreate(p, t, id, product, cart, key) =>
      && p !in s.procs && t !in s.w.txns && FreshId(s, id)
      && product.isActive && product.appId == cart.appId && cart.quantity > 0
    case FinishCreate(p) => p in s.procs && s.procs[p].Creating? && WalletAnswered(s, s.procs[p].t)
    case StartRefund(p, t, id, _, _, _) =>
      p !in s.procs && t !in s.w.txns && id in s.orders && s.orders[id].status == PAID && s.orders[id].total > 0
    case FinishRefund(p) => p in s.procs && s.procs[p].Refunding? && WalletAnswered(s, s.procs[p].t)
    case Crash(p) => p in s.procs
  }

  function Begun(w: Wallet.State, t: nat, req: Request): Wallet.State {
    Wallet.Step(w, Wallet.Begin(t, req))
  }

  function SetStatus(orders: map<string, Order>, id: string, status: Status): map<string, Order> {
    if id in orders then orders[id := orders[id].(status := status)] else orders
  }

  function Step(s: State, a: Action): State {
    match a
    case Wallet(b) => s.(w := Wallet.Step(s.w, b))
    case Call(t, req) => s.(w := Begun(s.w, t, req), owner := s.owner[t := Outside])
    case StartCreate(p, t, id, product, cart, key) =>
      var row := NewOrder(id, Some(product), cart);
      if row.Err? then s
      else s.(w := Begun(s.w, t, DebitRequest(row.order, key)),
              procs := s.procs[p := Creating(row.order, t)],
              owner := s.owner[t := CreateOf(row.order, product, key)])
    case FinishCreate(p) =>
      if p in s.procs && s.procs[p].Creating? then
        var o := s.procs[p].order;
        s.(orders := s.orders[o.id := o.(status := PAID)], procs := s.procs - {p})
      else s
    case StartRefund(p, t, id, refType, refId, key) =>
      if id !in s.orders then s
      else s.(w := Begun(s.w, t, RefundRequest(s.orders[id], refType, refId, key)),
              procs := s.procs[p := Refunding(id, t)],
              owner := s.owner[t := RefundOf(id, refType, refId, key)])
    case FinishRefund(p) =>
      if p in s.procs && s.procs[p].Refunding?
      then s.(orders := SetStatus(s.orders, s.procs[p].id, REFUNDED), procs := s.procs - {p})
      else s
    case Crash(p) => s.(procs := s.procs - {p})
  }

  function Run(s: State, acts: seq<Action>): State
    decreases |acts|
  {
    if acts == [] then s else Run(Step(s, acts[0]), acts[1..])
  }

  ghost predicate Legal(s: State, acts: seq<Action>)
    decreases |acts|
  {
    acts == [] || (Enabled(s, acts[0]) && Legal(Step(s, acts[0]), acts[1..]))
  }

  // --- the invariant --------------------------------------------------------------------

  // Each wallet call made for an order is the one its code makes.
  ghost predicate Fits(orders: map<string, Order>, req: Request, owner: Owner) {
    match owner
    case Outside => true
    case CreateOf(o, product, key) =>
      && req == DebitRequest(o, key) && o.status == PENDING
      && o.total == product.price * o.quantity && o.quantity > 0
      && product.id == o.productId && product.appId == o.appId && product.isActive
    case RefundOf(id, refType, refId, key) => id in orders && req == RefundRequest(orders[id], refType, refId, key)
  }

  ghost predicate OwnersOk(s: State) {
    && s.owner.Keys == s.w.txns.Keys
    && (forall t :: t in s.owner ==> Fits(s.orders, s.w.txns[t].req, s.owner[t]))
    && (forall t, u :: t in s.owner && u in s.owner && t != u && s.owner[t].CreateOf? && s.owner[u].CreateOf? ==>
          s.owner[t].order.id != s.owner[u].order.id)
  }

  // A visible order was paid for by its own wallet call.
  ghost predicate PaidBy(s: State, id: string, t: nat) {
    && id in s.orders && t in s.owner && t in s.w.txns
    && s.owner[t].CreateOf? && s.owner[t].order == s.orders[id].(status := PENDING)
    && s.w.txns[t].pc.Ended? && s.w.txns[t].pc.outcome.Done?
  }

  ghost predicate OrdersOk(s: State) {
    forall id :: id in s.orders ==>
      && s.orders[id].id == id && s.orders[id].status != PENDING
      && exists t :: PaidBy(s, id, t)
  }

  // No other wallet call uses the key of an order that is still being created.
  ghost predicate KeyAlone(w: Wallet.State, id: string, t: nat) {
    forall u :: u in w.txns && u != t ==> w.txns[u].req.key != Val(DebitKey(id))
  }

  ghost predicate ProcOk(s: State, proc: Proc) {
    match proc
    case Creating(o, t) =>
      && t in s.owner && s.owner[t].CreateOf? && s.owner[t].order == o && o.id !in s.orders
      && KeyAlone(s.w, o.id, t)
    case Refunding(id, t) => t in s.owner && s.owner[t].RefundOf? && s.owner[t].id == id && id in s.orders
  }

  ghost predicate ProcsOk(s: State) {
    forall p :: p in s.procs ==> ProcOk(s, s.procs[p])
  }

  ghost predicate ProcsApart(s: State) {
    forall p, q :: p in s.procs && q in s.procs && p != q ==> s.procs[p].t != s.procs[q].t
  }

  ghost predicate Inv(s: State) {
    && Wallet.Inv(s.w) && OwnersOk(s) && OrdersOk(s) && ProcsOk(s) && ProcsApart(s)
  }

  // Requests and ended outcomes of wallet calls do not change.
  ghost predicate Later(w: Wallet.State, w2: Wallet.State) {
    && (forall t :: t in w.txns ==>
          && t in w2.txns && w2.txns[t].req == w.txns[t].req
          && (w.txns[t].pc.Ended? ==> w2.txns[t] == w.txns[t]))
  }

  lemma {:induction false} WalletMoves(w: Wallet.State, b: Wallet.Action)
    requires Wallet.Enabled(w, b)
    ensures Later(w, Wallet.Step(w, b))
    ensures !b.Begin? ==> Wallet.Step(w, b).txns.Keys == w.txns.Keys
  {
  }

  lemma {:induction false} LaterOk(s: State, w: Wallet.State)
    requires OwnersOk(s) && OrdersOk(s) && ProcsOk(s) && Later(s.w, w) && w.txns.Keys == s.w.txns.Keys
    ensures OwnersOk(s.(w := w)) && OrdersOk(s.(w := w)) && ProcsOk(s.(w := w))
  {
    var s2 := s.(w := w);
    forall id | id in s2.orders ensures exists t :: PaidBy(s2, id, t) {
      var t :| PaidBy(s, id, t);
      assert PaidBy(s2, id, t);
    }
  }

  lemma {:induction false} MovesOk(s: State, b: Wallet.Action)
    requires Inv(s) && !b.Begin? && Wallet.Enabled(s.w, b)
    ensures Inv(s.(w := Wallet.Step(s.w, b)))
  {
    hide OwnersOk, OrdersOk, ProcsOk, Later;
    WalletSafety.StepKeepsInv(s.w, b);
    WalletMoves(s.w, b);
    LaterOk(s, Wallet.Step(s.w, b));
  }

  function WithCall(s: State, t: nat, req: Request, owner: Owner): State {
    s.(w := Begun(s.w, t, req), owner := s.owner[t := owner])
  }

  lemma {:induction false} CallMoves(s: State, t: nat, req: Request)
    requires t !in s.w.txns
    ensures Later(s.w, Begun(s.w, t, req)) && Begun(s.w, t, req).txns.Keys == s.w.txns.Keys + {t}
    ensures Begun(s.w, t, req).txns[t].req == req
    ensures forall u :: u in s.w.txns ==> Begun(s.w, t, req).txns[u] == s.w.txns[u]
  {
  }

  lemma {:induction false} CallOwnersOk(s: State, t: nat, req: Request, owner: Owner)
    requires OwnersOk(s) && t !in s.w.txns && Fits(s.orders, req, owner)
    requires owner.CreateOf? ==> FreshId(s, owner.order.id)
    ensures OwnersOk(WithCall(s, t, req, owner))
  {
    CallMoves(s, t, req);
  }

  lemma {:induction false} CallRestOk(s: State, t: nat, req: Request, owner: Owner)
    requires OwnersOk(s) && OrdersOk(s) && ProcsOk(s) && t !in s.w.txns && OutsideMay(s, req)
    ensures OrdersOk(WithCall(s, t, req, owner)) && ProcsOk(WithCall(s, t, req, owner))
  {
    hide OwnersOk, FreshId;
    CallMoves(s, t, req);
    assert t !in s.owner by { assert OwnersOk(s); Owned(s); }
    var s2 := WithCall(s, t, req, owner);
    forall id | id in s2.orders ensures exists t :: PaidBy(s2, id, t) {
      var u :| PaidBy(s, id, u);
      assert PaidBy(s2, id, u);
    }
  }

  lemma {:induction false} Owned(s: State)
    requires OwnersOk(s)
    ensures s.owner.Keys == s.w.txns.Keys
  {
  }

  // A new wallet call fits in if it does not use the key of an order being created.
  lemma {:induction false} CallOk(s: State, t: nat, req: Request, owner: Owner)
    requires Inv(s) && t !in s.w.txns && OutsideMay(s, req) && Fits(s.orders, req, owner)
    requires owner.CreateOf? ==> FreshId(s, owner.order.id)
    ensures Inv(WithCall(s, t, req, owner))
  {
    hide OwnersOk, OrdersOk, ProcsOk, FreshId, OutsideMay, Fits;
    WalletSafety.StepKeepsInv(s.w, Wallet.Begin(t, req));
    CallOwnersOk(s, t, req, owner);
    CallRestOk(s, t, req, owner);
  }

  lemma {:induction false} KeyKindsDiffer(a: string, b: string)
    ensures RefundKey(a) != DebitKey(b)
  {
    var r, d := RefundKey(a), DebitKey(b);
    assert r[|r| - 1] == 'd' && d[|d| - 1] == 't';
  }

  lemma {:induction false} OwnCallsAllowed(s: State, id: string, o: Order, refType: Field<string>,
          refId: Field<string>, key: Field<string>)
    requires ProcsOk(s) && o.id == id
    ensures FreshId(s, id) ==> OutsideMay(s, DebitRequest(o, key))
    ensures OutsideMay(s, RefundRequest(o, refType, refId, key))
  {
    forall p | p in s.procs && s.procs[p].Creating?
      ensures RefundRequest(o, refType, refId, key).key != Val(DebitKey(s.procs[p].order.id))
      ensures FreshId(s, id) ==> DebitRequest(o, key).key != Val(DebitKey(s.procs[p].order.id))
    {
      KeyKindsDiffer(id, s.procs[p].order.id);
      if s.procs[p].order.id != id { KeysDiffer(id, s.procs[p].order.id); }
    }
  }

  lemma {:induction false} NewCreation(s: State, t: nat, o: Order, product: Product, key: Field<string>)
    requires OwnersOk(s) && ProcsOk(s) && t !in s.w.txns && FreshId(s, o.id)
    requires Fits(s.orders, DebitRequest(o, key), CreateOf(o, product, key))
    ensures var s1 := WithCall(s, t, DebitRequest(o, key), CreateOf(o, product, key));
      ProcOk(s1, Creating(o, t)) && forall q :: q in s1.procs ==> s1.procs[q].t != t
  {
    CallMoves(s, t, DebitRequest(o, key));
    var s1 := WithCall(s, t, DebitRequest(o, key), CreateOf(o, product, key));
    assert KeyAlone(s1.w, o.id, t);
    Owned(s);
  }

  lemma {:induction false} StartCreateOk(s: State, a: Action)
    requires Inv(s) && a.StartCreate? && Enabled(s, a)
    ensures Inv(Step(s, a))
  {
    hide Inv, FreshId, OutsideMay, ProcOk;
    var o := NewOrder(a.id, Some(a.product), a.cart).order;
    var owner := CreateOf(o, a.product, a.key);
    InvParts(s);
    OwnCallsAllowed(s, a.id, o, Undefined, Undefined, a.key);
    CallOk(s, a.t, DebitRequest(o, a.key), owner);
    NewCreation(s, a.t, o, a.product, a.key);
    AddProc(WithCall(s, a.t, DebitRequest(o, a.key), owner), a.p, Creating(o, a.t));
  }

  lemma {:induction false} InvParts(s: State)
    requires Inv(s)
    ensures Wallet.Inv(s.w) && OwnersOk(s) && OrdersOk(s) && ProcsOk(s) && ProcsApart(s)
  {
  }

  lemma {:induction false} NewRefund(s: State, t: nat, req: Request, owner: Owner)
    requires OwnersOk(s) && ProcsOk(s) && t !in s.w.txns && owner.RefundOf? && owner.id in s.orders
    ensures var s1 := WithCall(s, t, req, owner);
      ProcOk(s1, Refunding(owner.id, t)) && forall q :: q in s1.procs ==> s1.procs[q].t != t
  {
    Owned(s);
  }

  lemma {:induction false} StartRefundOk(s: State, a: Action)
    requires Inv(s) && a.StartRefund? && Enabled(s, a)
    ensures Inv(Step(s, a))
  {
    hide Inv, FreshId, OutsideMay, ProcOk, ProcsOk, OwnersOk;
    var o := s.orders[a.id];
    var owner := RefundOf(a.id, a.refType, a.refId, a.key);
    var req := RefundRequest(o, a.refType, a.refId, a.key);
    InvParts(s);
    OwnCallsAllowed(s, o.id, o, a.refType, a.refId, a.key);
    CallOk(s, a.t, req, owner);
    NewRefund(s, a.t, req, owner);
    AddProc(WithCall(s, a.t, req, owner), a.p, Refunding(a.id, a.t));
  }

  lemma {:induction false} AddProc(s: State, p: nat, proc: Proc)
    requires Inv(s) && p !in s.procs && ProcOk(s, proc)
    requires forall q :: q in s.procs ==> s.procs[q].t != proc.t
    ensures Inv(s.(procs := s.procs[p := proc]))
  {
    hide OwnersOk, OrdersOk;
    SameButProcs(s, s.procs[p := proc]);
    var s2 := s.(procs := s.procs[p := proc]);
    forall q | q in s2.procs ensures ProcOk(s2, s2.procs[q]) {
      assert ProcOk(s, s2.procs[q]);
    }
  }

  lemma {:induction false} DropProc(s: State, p: nat)
    requires Inv(s)
    ensures Inv(s.(procs := s.procs - {p}))
  {
    hide OwnersOk, OrdersOk;
    SameButProcs(s, s.procs - {p});
    var s2 := s.(procs := s.procs - {p});
    forall q | q in s2.procs ensures ProcOk(s2, s2.procs[q]) {
      assert ProcOk(s, s2.procs[q]);
    }
  }

  lemma {:induction false} SameButProcs(s: State, procs: map<nat, Proc>)
    requires OwnersOk(s) && OrdersOk(s)
    ensures OwnersOk(s.(procs := procs)) && OrdersOk(s.(procs := procs))
  {
    var s2 := s.(procs := procs);
    forall id | id in s2.orders ensures exists t :: PaidBy(s2, id, t) {
      var t :| PaidBy(s, id, t);
      assert PaidBy(s2, id, t);
    }
  }

  // A wallet call that nobody shares a key with is not answered from the key table.
  lemma {:induction false} AloneIsDone(w: Wallet.State, t: nat)
    requires Wallet.Inv(w) && t in w.txns && w.txns[t].pc.Ended? && Answered(w.txns[t].pc.outcome)
    requires forall u :: u in w.txns && u != t ==> !Wallet.SameKey(w.txns[u].req, w.txns[t].req)
    ensures w.txns[t].pc.outcome.Done?
  {
    assert Wallet.TxnOk(w.db, w.log, t, w.txns[t]);
  }

  lemma {:induction false} OwnDebitIsDone(s: State, p: nat)
    requires Wallet.Inv(s.w) && OwnersOk(s) && p in s.procs && ProcOk(s, s.procs[p])
    requires s.procs[p].Creating? && WalletAnswered(s, s.procs[p].t)
    ensures s.w.txns[s.procs[p].t].pc.outcome.Done?
  {
    hide Wallet.Inv;
    var t := s.procs[p].t;
    assert Fits(s.orders, s.w.txns[t].req, s.owner[t]);
    AloneIsDone(s.w, t);
  }

  // Orders may be added and change status; nothing else about them changes.
  ghost predicate Amended(orders: map<string, Order>, after: map<string, Order>) {
    forall id :: id in orders ==>
      id in after && after[id].(status := PENDING) == orders[id].(status := PENDING) && after[id].status != PENDING
  }

  lemma {:induction false} AmendedOwnersOk(s: State, orders: map<string, Order>)
    requires OwnersOk(s) && Amended(s.orders, orders)
    ensures OwnersOk(s.(orders := orders))
  {
    var s2 := s.(orders := orders);
    forall t | t in s2.owner ensures Fits(s2.orders, s2.w.txns[t].req, s2.owner[t]) {
      assert Fits(s.orders, s.w.txns[t].req, s.owner[t]);
    }
  }

  lemma {:induction false} AmendedOrdersOk(s: State, orders: map<string, Order>)
    requires OrdersOk(s) && Amended(s.orders, orders)
    requires forall id :: id in orders && id !in s.orders ==>
               orders[id].id == id && orders[id].status != PENDING && exists t :: PaidBy(s.(orders := orders), id, t)
    ensures OrdersOk(s.(orders := orders))
  {
    var s2 := s.(orders := orders);
    forall id | id in s2.orders ensures exists t :: PaidBy(s2, id, t) {
      if id in s.orders {
        var u :| PaidBy(s, id, u);
        assert PaidBy(s2, id, u);
      }
    }
  }

  lemma {:induction false} PaidOk(s: State, p: nat)
    requires Wallet.Inv(s.w) && OwnersOk(s) && OrdersOk(s) && p in s.procs && ProcOk(s, s.procs[p])
    requires s.procs[p].Creating? && WalletAnswered(s, s.procs[p].t)
    ensures var o := s.procs[p].order;
      var s2 := s.(orders := s.orders[o.id := o.(status := PAID)]);
      OwnersOk(s2) && OrdersOk(s2)
  {
    hide Wallet.Inv, OwnersOk;
    var o, t := s.procs[p].order, s.procs[p].t;
    OwnDebitIsDone(s, p);
    var orders := s.orders[o.id := o.(status := PAID)];
    assert Fits(s.orders, s.w.txns[t].req, s.owner[t]) by { OwnerFits(s, t); }
    AmendedOwnersOk(s, orders);
    assert PaidBy(s.(orders := orders), o.id, t);
    AmendedOrdersOk(s, orders);
  }

  lemma {:induction false} OwnerFits(s: State, t: nat)
    requires OwnersOk(s) && t in s.owner
    ensures t in s.w.txns && Fits(s.orders, s.w.txns[t].req, s.owner[t])
  {
  }

  lemma {:induction false} OthersNotThis(s: State, p: nat, q: nat)
    requires OwnersOk(s) && ProcsOk(s) && ProcsApart(s)
    requires p in s.procs && q in s.procs && p != q && s.procs[p].Creating? && s.procs[q].Creating?
    ensures s.procs[p].order.id != s.procs[q].order.id
  {
    assert ProcOk(s, s.procs[p]) && ProcOk(s, s.procs[q]);
  }

  lemma {:induction false} FinishProcsOk(s: State, p: nat, orders: map<string, Order>)
    requires OwnersOk(s) && ProcsOk(s) && ProcsApart(s) && p in s.procs
    requires orders.Keys == s.orders.Keys + (if s.procs[p].Creating? then {s.procs[p].order.id} else {})
    ensures ProcsOk(s.(orders := orders, procs := s.procs - {p}))
  {
    var s2 := s.(orders := orders, procs := s.procs - {p});
    forall q | q in s2.procs ensures ProcOk(s2, s2.procs[q]) {
      assert ProcOk(s, s.procs[q]);
      if s.procs[p].Creating? && s.procs[q].Creating? { OthersNotThis(s, p, q); }
    }
  }

  lemma {:induction false} FinishCreateOk(s: State, p: nat)
    requires Inv(s) && Enabled(s, FinishCreate(p))
    ensures Inv(Step(s, FinishCreate(p)))
  {
    hide Wallet.Inv, OwnersOk, OrdersOk, ProcOk;
    var o := s.procs[p].order;
    var orders := s.orders[o.id := o.(status := PAID)];
    PaidOk(s, p);
    FinishProcsOk(s, p, orders);
    SameButProcs(s.(orders := orders), s.procs - {p});
  }

  lemma {:induction false} RefundAmends(orders: map<string, Order>, id: string)
    requires forall i :: i in orders ==> orders[i].status != PENDING
    ensures Amended(orders, SetStatus(orders, id, REFUNDED)) && SetStatus(orders, id, REFUNDED).Keys == orders.Keys
  {
  }

  lemma {:induction false} NonePending(s: State)
    requires OrdersOk(s)
    ensures forall i :: i in s.orders ==> s.orders[i].status != PENDING
  {
  }

  lemma {:induction false} FinishRefundOk(s: State, p: nat)
    requires Inv(s) && Enabled(s, FinishRefund(p))
    ensures Inv(Step(s, FinishRefund(p)))
  {
    hide Wallet.Inv, OwnersOk, OrdersOk, ProcOk, Amended;
    var orders := SetStatus(s.orders, s.procs[p].id, REFUNDED);
    NonePending(s);
    RefundAmends(s.orders, s.procs[p].id);
    AmendedOwnersOk(s, orders);
    AmendedOrdersOk(s, orders);
    FinishProcsOk(s, p, orders);
    SameButProcs(s.(orders := orders), s.procs - {p});
  }

  lemma {:induction false} StepKeepsInv(s: State, a: Action)
    requires Inv(s) && Enabled(s, a)
    ensures Inv(Step(s, a))
  {
    hide Inv, OutsideMay;
    match a
    case Wallet(b) => MovesOk(s, b);
    case Call(t, req) => CallOk(s, t, req, Outside);
    case StartCreate(_, _, _, _, _, _) => StartCreateOk(s, a);
    case FinishCreate(p) => FinishCreateOk(s, p);
    case StartRefund(_, _, _, _, _, _) => StartRefundOk(s, a);
    case FinishRefund(p) => FinishRefundOk(s, p);
    case Crash(p) => DropProc(s, p);
  }

  lemma {:induction false} RunKeepsInv(s: State, acts: seq<Action>)
    requires Inv(s) && Legal(s, acts)
    ensures Inv(Run(s, acts))
    decreases |acts|
  {
    if acts != [] {
      StepKeepsInv(s, acts[0]);
      RunKeepsInv(Step(s, acts[0]), acts[1..]);
    }
  }
}
