// What refunds can come to over every interleaving and crash: how often an order is
// credited, and what a REFUNDED order says about the wallet.

module RefundSafety {
  import opened Prelude
  import opened JsValues
  import opened WalletTables
  import opened Points
  import opened Orders
  import opened OrderRuns
  import opened OrderSafety
  import W = WalletRuns
  import WalletSafety
  import Decimal

  ghost predicate Refunds(s: State, i: int, id: string)
    requires 0 <= i < |s.w.log|
  {
    var t := s.w.log[i].txn;
    t in s.owner && s.owner[t].RefundOf? && s.owner[t].id == id
  }

  // A committed refund credit is the one its order calls for, with the reference given or
  // its default, under the order's refund key if a non-empty key was given.
  lemma {:induction false} RefundFacts(s: State, id: string, i: int)
    requires Reachable(s) && 0 <= i < |s.w.log| && Refunds(s, i, id)
    ensures var owner, req := s.owner[s.w.log[i].txn], s.w.log[i].req;
      && id in s.orders && s.orders[id].id == id
      && req.direction == CREDIT && req.appId == s.orders[id].appId
      && req.fields == RefundHash(s.orders[id], owner.refType, owner.refId)
      && req.key == (if owner.key.Val? && owner.key.value != "" then Val("order:" + id + ":refund") else Undefined)
  {
    hide Reachable;
    LogFits(s);
    assert Fits(s.orders, s.w.log[i].req, s.owner[s.w.log[i].txn]);
    VisibleOrderIsPaid(s, id);
  }

  // Of any two committed refund credits of one order, at most one was asked for with a key;
  // so if every refund request carries a key, an order is credited at most once, whatever
  // the interleaving and the crashes. Each credit is for the whole amount.
  lemma {:induction false} KeyedRefundOnce(s: State, id: string, i: int, j: int)
    requires Reachable(s) && 0 <= i < j < |s.w.log| && Refunds(s, i, id) && Refunds(s, j, id)
    ensures !NonEmpty(s.owner[s.w.log[i].txn].key) || !NonEmpty(s.owner[s.w.log[j].txn].key)
    ensures id in s.orders && s.w.log[i].req.direction == CREDIT
    ensures s.w.log[i].req.fields.amount.value == s.orders[id].total
  {
    RefundFacts(s, id, i);
    RefundFacts(s, id, j);
    assert !W.SameKey(s.w.log[i].req, s.w.log[j].req) by { ReachableOk(s); }
  }

  // --- the key table --------------------------------------------------------------------

  function KeyOf(s: State, id: string): KeyId
    requires id in s.orders
  {
    Key(s.orders[id].appId, "order:" + id + ":refund")
  }

  // Effect i is the one recorded under the order's refund key.
  ghost predicate RecordedAs(s: State, id: string, i: int) {
    id in s.orders && 0 <= i < |s.w.log| && s.w.log[i].req.Keyed() && s.w.log[i].req.KeyId() == KeyOf(s, id)
  }

  lemma {:induction false} RecordedRow(s: State, id: string, i: int)
    requires Reachable(s) && RecordedAs(s, id, i)
    ensures KeyOf(s, id) in s.w.db.keys
    ensures s.w.db.keys[KeyOf(s, id)] == KeyRow(s.w.log[i].req.fields, s.w.log[i].Reply())
  {
    assert W.LogOk(s.w.db, s.w.log) by { ReachableOk(s); }
  }

  lemma {:induction false} RowHasRecord(s: State, id: string) returns (i: int)
    requires Reachable(s) && id in s.orders && KeyOf(s, id) in s.w.db.keys
    ensures RecordedAs(s, id, i)
  {
    assert W.LogOk(s.w.db, s.w.log) by { ReachableOk(s); }
    i :| 0 <= i < |s.w.log| && s.w.log[i].req.Keyed() && s.w.log[i].req.KeyId() == KeyOf(s, id);
  }

  // A committed keyed refund credit is the one recorded under the order's refund key.
  lemma {:induction false} CommittedRefundIsRecorded(s: State, id: string, i: int)
    requires Reachable(s) && 0 <= i < |s.w.log| && Refunds(s, i, id) && NonEmpty(s.owner[s.w.log[i].txn].key)
    ensures RecordedAs(s, id, i) && KeyOf(s, id) in s.w.db.keys
    ensures s.w.db.keys[KeyOf(s, id)] == KeyRow(s.w.log[i].req.fields, s.w.log[i].Reply())
  {
    RefundFacts(s, id, i);
    RecordedRow(s, id, i);
  }

  // A new keyed request for a PAID order whose key is recorded gets its answer from the key
  // lookup alone: with the recorded fields it goes on to REFUNDED, with others it is a
  // conflict, and no table of the wallet changes.
  lemma {:induction false} AnsweredFromKeys(s: State, id: string, p: nat, t: nat, refType: Field<string>,
          refId: Field<string>, key: Field<string>) returns (after: State)
    requires Reachable(s) && id in s.orders && KeyOf(s, id) in s.w.db.keys
    requires s.orders[id].status == PAID && s.orders[id].total > 0
    requires p !in s.procs && t !in s.w.txns && NonEmpty(key)
    ensures Leads(s, after) && after.w.db == s.w.db && after.w.log == s.w.log
    ensures after.owner == s.owner[t := RefundOf(id, refType, refId, key)]
    ensures var req, row := RefundRequest(s.orders[id], refType, refId, key), s.w.db.keys[KeyOf(s, id)];
      && t in after.w.txns
      && (if row.hash == req.fields
          then after.w.txns[t].pc == W.Ended(Replay(row.response)) && after.orders == SetStatus(s.orders, id, REFUNDED)
          else after.w.txns[t].pc == W.Ended(Error(KeyReused)) && after.orders == s.orders)
  {
    assert s.orders[id].id == id by { VisibleOrderIsPaid(s, id); }
    hide Reachable, Leads;
    Stay(s);
    var a1 := StartRefund(p, t, id, refType, refId, key);
    Go(s, s, a1);
    var s1 := Step(s, a1);
    Go(s, s1, OrderRuns.Action.Wallet(W.CheckKeyOf(t)));
    after := Step(s1, OrderRuns.Action.Wallet(W.CheckKeyOf(t)));
    if Answered(after.w.txns[t].pc.outcome) {
      Go(s, after, FinishRefund(p));
      after := Step(after, FinishRefund(p));
    }
  }

  // After a crash between the two commits of a keyed refund the order is still PAID and its
  // refund credit is committed. From then on a new keyed request with the same reference
  // reaches REFUNDED with no second credit, and with another reference it is a conflict.
  lemma {:induction false} RetriedRefund(s: State, id: string, i: int, p: nat, t: nat, refType: Field<string>,
          refId: Field<string>, key: Field<string>) returns (after: State)
    requires Reachable(s) && 0 <= i < |s.w.log| && Refunds(s, i, id) && NonEmpty(s.owner[s.w.log[i].txn].key)
    requires id in s.orders && s.orders[id].status == PAID && s.orders[id].total > 0
    requires p !in s.procs && t !in s.w.txns && NonEmpty(key)
    ensures Leads(s, after) && after.w.db == s.w.db && after.w.log == s.w.log
    ensures var made := s.w.log[i].req.fields;
      && t in after.w.txns
      && (if made.refType == Given(refType, "order_refund") && made.refId == Given(refId, id)
          then after.w.txns[t].pc == W.Ended(Replay(s.w.log[i].Reply()))
               && after.orders == SetStatus(s.orders, id, REFUNDED)
          else after.w.txns[t].pc == W.Ended(Error(KeyReused)) && after.orders == s.orders)
  {
    hide Reachable, Leads;
    RefundFacts(s, id, i);
    CommittedRefundIsRecorded(s, id, i);
    after := AnsweredFromKeys(s, id, p, t, refType, refId, key);
  }

  // --- what REFUNDED means --------------------------------------------------------------

  ghost predicate RefundFields(o: Order, fields: Fields) {
    && fields.amount == Amount(Decimal.Text(o.total), o.total) && fields.userId == o.userId
    && fields.reason == "REFUND" && fields.refType != "" && (fields.refId != "" || fields.refId == o.id)
  }

  // Effect i was made from outside, under the order's refund key and with the fields of a
  // refund of it.
  ghost predicate StandsIn(s: State, id: string, i: int) {
    RecordedAs(s, id, i) && s.w.log[i].txn in s.owner && s.owner[s.w.log[i].txn].Outside?
    && RefundFields(s.orders[id], s.w.log[i].req.fields)
  }

  ghost predicate CreditedBy(s: State, id: string, i: int) {
    0 <= i < |s.w.log| && Refunds(s, i, id)
  }

  ghost predicate Accounted(s: State, id: string) {
    exists i :: CreditedBy(s, id, i) || StandsIn(s, id, i)
  }

  ghost predicate RefundsOk(s: State) {
    forall id :: id in s.orders && s.orders[id].status == REFUNDED ==> Accounted(s, id)
  }

  lemma {:induction false} SameKeyKind(s: State, id: string, i: int)
    requires Inv(s) && RecordedAs(s, id, i)
    ensures var t := s.w.log[i].txn;
      t in s.owner && (s.owner[t].Outside? || CreditedBy(s, id, i))
  {
    hide Inv, OrdersOk, OwnersOk, ProcsOk, ProcsApart, W.Inv;
    InvParts(s);
    Owned(s);
    LogCalls(s.w, i);
    var t := s.w.log[i].txn;
    OwnerFits(s, t);
    OrderIds(s);
    KeyTellsOwner(s.orders, s.w.txns[t].req, s.owner[t], id);
  }

  // A call that uses an order's refund key is a refund of that order or comes from outside.
  lemma {:induction false} KeyTellsOwner(orders: map<string, Order>, req: Request, owner: Owner, id: string)
    requires Fits(orders, req, owner) && req.key == Val(RefundKey(id))
    requires forall i :: i in orders ==> orders[i].id == i
    ensures owner.Outside? || (owner.RefundOf? && owner.id == id)
  {
    match owner
    case Outside =>
    case CreateOf(o, _, _) => KeyKindsDiffer(id, o.id);
    case RefundOf(id2, _, _, _) => if id2 != id { KeysDiffer(id2, id); }
  }

  lemma OrderIds(s: State)
    requires OrdersOk(s)
    ensures forall id :: id in s.orders ==> s.orders[id].id == id
  {
  }

  // A refund request the wallet has answered is accounted for.
  lemma {:induction false} AnsweredIsAccounted(s: State, p: nat)
    requires Inv(s) && p in s.procs && s.procs[p].Refunding? && WalletAnswered(s, s.procs[p].t)
    ensures s.procs[p].id in s.orders && Accounted(s, s.procs[p].id)
  {
    hide Inv, OrdersOk, OwnersOk, ProcsApart, W.Inv;
    InvParts(s);
    var id, t := s.procs[p].id, s.procs[p].t;
    assert ProcOk(s, s.procs[p]);
    hide ProcsOk, RefundFields;
    OwnerFits(s, t);
    OrderIds(s);
    var i := AnswerInLog(s.w, t);
    if s.w.txns[t].pc.outcome.Done? {
      assert CreditedBy(s, id, i);
    } else {
      var owner := s.owner[t];
      assert RecordedAs(s, id, i);
      SameKeyKind(s, id, i);
      OwnRefundFields(s.orders[id], owner.refType, owner.refId, owner.key);
      assert CreditedBy(s, id, i) || StandsIn(s, id, i);
    }
  }

  lemma OwnRefundFields(o: Order, refType: Field<string>, refId: Field<string>, key: Field<string>)
    ensures RefundFields(o, RefundRequest(o, refType, refId, key).fields)
  {
  }

  lemma {:induction false} AnswerInLog(w: W.State, t: nat) returns (i: int)
    requires W.Inv(w) && t in w.txns && w.txns[t].pc.Ended? && Answered(w.txns[t].pc.outcome)
    ensures 0 <= i < |w.log|
    ensures w.txns[t].pc.outcome.Done? ==> w.log[i].txn == t
    ensures w.txns[t].pc.outcome.Replay? ==>
              W.SameKey(w.log[i].req, w.txns[t].req) && w.log[i].req.fields == w.txns[t].req.fields
  {
    hide Reconciled, W.LogOk, W.Apart;
    assert W.TxnOk(w.db, w.log, t, w.txns[t]);
    if w.txns[t].pc.outcome.Done? {
      i :| 0 <= i < |w.log| && w.log[i].txn == t;
    } else {
      i :| 0 <= i < |w.log| && W.SameKey(w.log[i].req, w.txns[t].req) && w.log[i].req.fields == w.txns[t].req.fields;
    }
  }

  lemma {:induction false} StaysAccounted(s: State, later: State, id: string)
    requires Onward(s, later) && id in s.orders && Accounted(s, id)
    ensures Accounted(later, id)
  {
    hide Abandoned;
    var i :| CreditedBy(s, id, i) || StandsIn(s, id, i);
    assert later.w.log[i] == s.w.log[i];
    if StandsIn(s, id, i) {
      assert StandsIn(later, id, i);
    } else {
      assert CreditedBy(later, id, i);
    }
  }

  // Only a refund's last step makes an order REFUNDED.
  lemma {:induction false} NewlyRefunded(s: State, a: Action, id: string)
    requires Inv(s) && Enabled(s, a) && id in Step(s, a).orders && Step(s, a).orders[id].status == REFUNDED
    ensures id in s.orders
    ensures s.orders[id].status == REFUNDED || (a.FinishRefund? && s.procs[a.p].id == id)
  {
    hide Inv, FreshId, OutsideMay;
  }

  lemma {:induction false} StepKeepsRefunds(s: State, a: Action)
    requires Inv(s) && RefundsOk(s) && Enabled(s, a)
    ensures RefundsOk(Step(s, a))
  {
    StepOnward(s, a);
    var s1 := Step(s, a);
    forall id | id in s1.orders && s1.orders[id].status == REFUNDED ensures Accounted(s1, id) {
      NewlyRefunded(s, a, id);
      if s.orders[id].status != REFUNDED {
        FinishEnabled(s, a);
        AnsweredIsAccounted(s, a.p);
      }
      hide Inv, Step, Enabled, Accounted, Onward;
      StaysAccounted(s, s1, id);
    }
  }

  lemma FinishEnabled(s: State, a: Action)
    requires a.FinishRefund? && Enabled(s, a)
    ensures a.p in s.procs && s.procs[a.p].Refunding? && WalletAnswered(s, s.procs[a.p].t)
  {
  }

  lemma {:induction false} RunKeepsRefunds(s: State, acts: seq<Action>)
    requires Inv(s) && RefundsOk(s) && Legal(s, acts)
    ensures RefundsOk(Run(s, acts))
    decreases |acts|
  {
    hide Inv, RefundsOk, Step, Enabled;
    if acts != [] {
      StepKeepsInv(s, acts[0]);
      StepKeepsRefunds(s, acts[0]);
      RunKeepsRefunds(Step(s, acts[0]), acts[1..]);
    }
  }

  lemma {:induction false} ReachableRefundsOk(s: State)
    requires Reachable(s)
    ensures RefundsOk(s)
  {
    var acts :| Legal(INIT, acts) && Run(INIT, acts) == s;
    WalletSafety.InitOk();
    hide Legal, Run;
    RunKeepsRefunds(INIT, acts);
  }

  // In every reachable state a REFUNDED order has a committed refund credit, for its total,
  // unless the effect recorded under its refund key was made from outside, with the fields
  // of a refund of it.
  lemma {:induction false} RefundedIsCredited(s: State, id: string) returns (i: int)
    requires Reachable(s) && id in s.orders && s.orders[id].status == REFUNDED
    ensures (CreditedBy(s, id, i)
             && s.w.log[i].req.direction == CREDIT && s.w.log[i].req.fields.amount.value == s.orders[id].total)
         || StandsIn(s, id, i)
  {
    hide Reachable;
    ReachableRefundsOk(s);
    i :| CreditedBy(s, id, i) || StandsIn(s, id, i);
    if CreditedBy(s, id, i) {
      RefundFacts(s, id, i);
    }
  }

  ghost predicate AllKeyed(s: State, id: string) {
    forall t :: t in s.owner && s.owner[t].RefundOf? && s.owner[t].id == id ==> NonEmpty(s.owner[t].key)
  }

  // When every refund request of an order carries a key, a REFUNDED order was credited
  // exactly when the effect recorded under its refund key was not made from outside.
  lemma {:induction false} RefundedCreditIff(s: State, id: string)
    requires Reachable(s) && id in s.orders && s.orders[id].status == REFUNDED && AllKeyed(s, id)
    ensures (exists i :: CreditedBy(s, id, i)) <==> !(exists i :: StandsIn(s, id, i))
  {
    hide Reachable, RefundFields;
    var k := RefundedIsCredited(s, id);
    if i, j :| CreditedBy(s, id, i) && StandsIn(s, id, j) {
      CommittedRefundIsRecorded(s, id, i);
      OneRecord(s, id, i, j);
    }
  }

  lemma {:induction false} OneRecord(s: State, id: string, i: int, j: int)
    requires Reachable(s) && RecordedAs(s, id, i) && RecordedAs(s, id, j)
    ensures i == j
  {
    assert W.LogOk(s.w.db, s.w.log) by { ReachableOk(s); }
    assert W.SameKey(s.w.log[i].req, s.w.log[j].req) && W.SameKey(s.w.log[j].req, s.w.log[i].req);
  }
}
