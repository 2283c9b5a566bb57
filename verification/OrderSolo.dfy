// An order or refund that nobody disturbs does, step by step, what the service's methods do
// in one go; and how an order can become REFUNDED without a refund credit.

module OrderSolo {
  import opened Prelude
  import opened JsValues
  import opened WalletTables
  import opened Fifo
  import opened Points
  import opened Orders
  import opened OrderRuns
  import opened OrderSafety
  import opened RefundSafety
  import W = WalletRuns
  import WalletSafety
  import WalletSolo
  import Decimal

  // --- wallet runs inside order runs ----------------------------------------------------

  lemma {:induction false} CallsOnlyGrow(w: W.State, acts: seq<W.Action>)
    requires W.Legal(w, acts)
    ensures w.txns.Keys <= W.Run(w, acts).txns.Keys
    decreases |acts|
  {
    if acts != [] {
      CallsOnlyGrow(W.Step(w, acts[0]), acts[1..]);
    }
  }

  lemma {:induction false} StepKeys(w: W.State, a: W.Action)
    requires W.Enabled(w, a)
    ensures W.Step(w, a).txns.Keys == if a.Begin? then w.txns.Keys + {a.t} else w.txns.Keys
    ensures a.Begin? ==> a.t !in w.txns
  {
  }

  lemma {:induction false} LiftSteps(from: State, s: State, acts: seq<W.Action>)
    requires Leads(from, s) && W.Legal(s.w, acts) && W.Run(s.w, acts).txns.Keys == s.w.txns.Keys
    ensures Leads(from, s.(w := W.Run(s.w, acts)))
    decreases |acts|
  {
    hide Leads, W.Step, W.Enabled;
    if acts == [] {
      assert s.(w := s.w) == s;
    } else {
      StepKeys(s.w, acts[0]);
      CallsOnlyGrow(W.Step(s.w, acts[0]), acts[1..]);
      var s1 := s.(w := W.Step(s.w, acts[0]));
      LiftOne(from, s, acts[0]);
      LiftSteps(from, s1, acts[1..]);
    }
  }

  lemma {:induction false} LiftOne(from: State, s: State, a: W.Action)
    requires Leads(from, s) && W.Enabled(s.w, a) && !a.Begin?
    ensures Leads(from, s.(w := W.Step(s.w, a)))
  {
    Go(from, s, OrderRuns.Action.Wallet(a));
  }

  // A wallet run that begins no call is a run of the whole.
  lemma {:induction false} Lift(from: State, s: State, w: W.State)
    requires Leads(from, s) && WalletSafety.Leads(s.w, w) && w.txns.Keys == s.w.txns.Keys
    ensures Leads(from, s.(w := w))
  {
    var acts :| W.Legal(s.w, acts) && W.Run(s.w, acts) == w;
    LiftSteps(from, s, acts);
  }

  // --- undisturbed calls ----------------------------------------------------------------

  // Nothing is under way.
  ghost predicate AtRest(s: State) {
    s.procs == map[] && forall u :: u in s.w.txns ==> s.w.txns[u].pc.Ended?
  }

  lemma {:induction false} RestFacts(s: State)
    requires Reachable(s) && AtRest(s)
    ensures WalletSolo.Quiet(s.w) && Reconciled(s.w.db)
  {
    hide Reachable, Inv, OwnersOk, OrdersOk, ProcsOk, W.Inv;
    ReachableOk(s);
    InvParts(s);
    WalletSolo.AllEndedIsQuiet(s.w);
  }

  function ServedAlone(db: Db, req: Request, id: nat, now: int): (Db, Outcome) {
    var balance := Balance(db.lots, req.User());
    if req.direction == CREDIT then Credit(db, req, balance, id, now) else Debit(db, req, balance)
  }

  // A call that has just begun, with nothing else under way, ends as the method does.
  lemma {:induction false} CallEnds(from: State, w: W.State, s: State, t: nat, req: Request, id: nat, now: int)
    returns (after: State)
    requires WalletSolo.Quiet(w) && Reconciled(w.db) && t !in w.txns && Lookup(w.db.lots, id).None?
    requires Leads(from, s) && s.w == Begun(w, t, req)
    ensures Leads(from, after) && after == s.(w := after.w)
    ensures var (db, out) := ServedAlone(w.db, req, id, now); WalletSolo.EndsAs(w, t, req, after.w, db, out)
  {
    hide Leads, WalletSafety.Leads, WalletSolo.Quiet, Reconciled, Credit, Debit;
    assert s.w == WalletSolo.With(w, t, W.Start(req));
    WalletSafety.Stay(s.w);
    var w1: W.State;
    if req.direction == CREDIT {
      w1 := WalletSolo.CreditEnds(s.w, w, t, req, id, now);
    } else {
      w1 := WalletSolo.DebitEnds(s.w, w, t, req);
    }
    Lift(from, s, w1);
    after := s.(w := w1);
  }

  // What both methods start from.
  function StoreOf(s: State): Store { Store(s.orders, s.w.db) }

  // An undisturbed creation leaves the orders and the wallet as the method does, whether its
  // own commit succeeds or fails.
  lemma {:induction false} SoloCreate(s: State, p: nat, t: nat, id: string, product: Product, cart: Cart,
          key: Field<string>, lotId: nat, outerCommits: bool) returns (after: State)
    requires Reachable(s) && AtRest(s) && t !in s.w.txns && FreshId(s, id)
    requires product.isActive && product.appId == cart.appId && cart.quantity > 0
    requires Lookup(s.w.db.lots, lotId).None?
    ensures Leads(s, after)
    ensures StoreOf(after) == Create(StoreOf(s), id, Some(product), cart, key,
                                     Balance(s.w.db.lots, cart.userId), outerCommits).0
  {
    RestFacts(s);
    hide Reachable, Leads, Reconciled, WalletSolo.Quiet, Debit;
    var o := NewOrder(id, Some(product), cart).order;
    Stay(s);
    Go(s, s, StartCreate(p, t, id, product, cart, key));
    var s1 := Step(s, StartCreate(p, t, id, product, cart, key));
    var s2 := CallEnds(s, s.w, s1, t, DebitRequest(o, key), lotId, 0);
    if outerCommits && WalletAnswered(s2, t) {
      Go(s, s2, FinishCreate(p));
      after := Step(s2, FinishCreate(p));
    } else {
      Go(s, s2, Crash(p));
      after := Step(s2, Crash(p));
    }
  }

  // The same for a refund.
  lemma {:induction false} SoloRefund(s: State, p: nat, t: nat, id: string, refType: Field<string>,
          refId: Field<string>, key: Field<string>, lotId: nat, now: int, outerCommits: bool) returns (after: State)
    requires Reachable(s) && AtRest(s) && t !in s.w.txns && Lookup(s.w.db.lots, lotId).None?
    requires id in s.orders && s.orders[id].status == PAID && s.orders[id].total > 0
    ensures Leads(s, after)
    ensures StoreOf(after) == Refund(StoreOf(s), id, refType, refId, key,
                                     Balance(s.w.db.lots, s.orders[id].userId), lotId, now, outerCommits).0
  {
    RestFacts(s);
    hide Reachable, Leads, Reconciled, WalletSolo.Quiet, Credit;
    Stay(s);
    Go(s, s, StartRefund(p, t, id, refType, refId, key));
    var s1 := Step(s, StartRefund(p, t, id, refType, refId, key));
    var s2 := CallEnds(s, s.w, s1, t, RefundRequest(s.orders[id], refType, refId, key), lotId, now);
    if outerCommits && WalletAnswered(s2, t) {
      Go(s, s2, FinishRefund(p));
      after := Step(s2, FinishRefund(p));
    } else {
      Go(s, s2, Crash(p));
      after := Step(s2, Crash(p));
    }
  }

  // --- REFUNDED without a refund credit -------------------------------------------------

  // A wallet call from outside under an order's refund key, with the fields of a refund of
  // it; it may even be a debit.
  ghost function Imposter(o: Order, direction: Direction, refType: Field<string>, refId: Field<string>): Request {
    Request(direction, o.appId,
            Fields(Amount(Decimal.Text(o.total), o.total), o.userId, "REFUND",
                   Given(refType, "order_refund"), Given(refId, o.id)),
            Val("order:" + o.id + ":refund"))
  }

  lemma {:induction false} ImposterCommits(s: State, id: string, t: nat, direction: Direction, refType: Field<string>,
          refId: Field<string>, lotId: nat) returns (after: State)
    requires Reachable(s) && AtRest(s) && id in s.orders && s.orders[id].id == id && s.orders[id].total > 0
    requires KeyOf(s, id) !in s.w.db.keys && t !in s.w.txns && Lookup(s.w.db.lots, lotId).None?
    requires direction == DEBIT ==> s.orders[id].total <= Balance(s.w.db.lots, s.orders[id].userId)
    ensures Leads(s, after) && after.orders == s.orders && after.procs == s.procs
    ensures after.owner == s.owner[t := Outside] && after.w.txns.Keys == s.w.txns.Keys + {t}
    ensures s.w.log <= after.w.log && |after.w.log| == |s.w.log| + 1
    ensures after.w.log[|s.w.log|].txn == t
    ensures after.w.log[|s.w.log|].req == Imposter(s.orders[id], direction, refType, refId)
  {
    RestFacts(s);
    hide Reachable, Leads, WalletSolo.Quiet;
    var req := Imposter(s.orders[id], direction, refType, refId);
    Stay(s);
    Go(s, s, OrderRuns.Action.Call(t, req));
    var s1 := Step(s, OrderRuns.Action.Call(t, req));
    ImposterServed(s.w.db, s.orders[id], direction, refType, refId, lotId);
    hide Reconciled, ServedAlone, RefundRequest;
    after := CallEnds(s, s.w, s1, t, req, lotId, 0);
  }

  lemma {:induction false} ImposterServed(db: Db, o: Order, direction: Direction, refType: Field<string>,
          refId: Field<string>, lotId: nat)
    requires Reconciled(db) && o.total > 0 && Key(o.appId, RefundKey(o.id)) !in db.keys
    requires direction == DEBIT ==> o.total <= Balance(db.lots, o.userId)
    ensures ServedAlone(db, Imposter(o, direction, refType, refId), lotId, 0).1.Done?
  {
    var req := Imposter(o, direction, refType, refId);
    if direction == DEBIT { DebitMeaning(db, req, Balance(db.lots, o.userId)); }
  }

  // From every reachable state at rest, an order that is PAID and was never refunded can
  // become REFUNDED with a single new effect in the wallet, made from outside: a credit, or
  // a debit the owner's balance covers.
  lemma {:induction false} RefundedByImposter(s: State, id: string, p: nat, t: nat, u: nat, direction: Direction,
          refType: Field<string>, refId: Field<string>, key: Field<string>, lotId: nat) returns (after: State)
    requires Reachable(s) && AtRest(s) && id in s.orders && s.orders[id].status == PAID && s.orders[id].total > 0
    requires KeyOf(s, id) !in s.w.db.keys && t !in s.w.txns && u !in s.w.txns && t != u
    requires key.Val? && key.value != ""
    requires direction == DEBIT ==> s.orders[id].total <= Balance(s.w.db.lots, s.orders[id].userId)
    requires Lookup(s.w.db.lots, lotId).None?
    ensures Leads(s, after) && after.orders == SetStatus(s.orders, id, REFUNDED)
    ensures |after.w.log| == |s.w.log| + 1 && s.w.log <= after.w.log
    ensures StandsIn(after, id, |s.w.log|) && after.w.log[|s.w.log|].req.direction == direction
  {
    assert s.orders[id].id == id by { VisibleOrderIsPaid(s, id); }
    hide Reachable, Leads, AtRest, Imposter, RefundRequest, RecordedAs, StandsIn;
    var n := |s.w.log|;
    var s1 := ImposterCommits(s, id, t, direction, refType, refId, lotId);
    LeadsReach(s, s1);
    ImposterStandsIn(s1, id, n, direction, refType, refId, key);
    RecordedRow(s1, id, n);
    AtRestNone(s, p);
    after := AnsweredFromKeys(s1, id, p, u, refType, refId, key);
    LeadsOn(s, s1, after);
    assert after.w.log[n] == s1.w.log[n];
    SameImposter(s1.orders[id], direction, refType, refId);
    ImposterStandsIn(after, id, n, direction, refType, refId, key);
  }

  lemma AtRestNone(s: State, p: nat)
    requires AtRest(s)
    ensures p !in s.procs
  {
  }

  lemma SameImposter(o: Order, direction: Direction, refType: Field<string>, refId: Field<string>)
    ensures Imposter(o.(status := REFUNDED), direction, refType, refId) == Imposter(o, direction, refType, refId)
  {
  }

  lemma {:induction false} ImposterStandsIn(s: State, id: string, i: int, direction: Direction, refType: Field<string>,
          refId: Field<string>, key: Field<string>)
    requires id in s.orders && s.orders[id].id == id && 0 <= i < |s.w.log|
    requires s.w.log[i].req == Imposter(s.orders[id], direction, refType, refId)
    requires s.w.log[i].txn in s.owner && s.owner[s.w.log[i].txn].Outside?
    ensures RecordedAs(s, id, i) && StandsIn(s, id, i) && s.w.log[i].req.direction == direction
    ensures s.w.log[i].req.fields == RefundRequest(s.orders[id], refType, refId, key).fields
  {
    OwnRefundFields(s.orders[id], refType, refId, Undefined);
  }

  lemma LeadsOn(s: State, s1: State, s2: State)
    requires Leads(s, s1) && Leads(s1, s2)
    ensures Leads(s, s2)
  {
    var a :| Legal(s, a) && Run(s, a) == s1;
    var b :| Legal(s1, b) && Run(s1, b) == s2;
    Concat(s, a, b);
  }
}
