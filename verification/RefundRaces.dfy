// Two refund requests that both saw an order PAID: exactly when both can credit it.

module RefundRaces {
  import opened Prelude
  import opened JsValues
  import opened WalletTables
  import opened Points
  import opened Orders
  import opened OrderRuns
  import opened OrderSafety
  import opened RefundSafety
  import W = WalletRuns
  import WalletSafety

  // What a refund request is made with.
  datatype Ask = Ask(refType: Field<string>, refId: Field<string>, key: Field<string>)

  function RequestOf(o: Order, a: Ask): Request { RefundRequest(o, a.refType, a.refId, a.key) }
  function OwnerOf(id: string, a: Ask): Owner { RefundOf(id, a.refType, a.refId, a.key) }

  // --- one credit runs ------------------------------------------------------------------

  lemma {:induction false} Moves(from: State, s: State, b: W.Action)
    requires Leads(from, s) && !b.Begin? && W.Enabled(s.w, b)
    ensures Leads(from, s.(w := W.Step(s.w, b)))
  {
    Go(from, s, OrderRuns.Action.Wallet(b));
  }

  // A wallet call that has begun and, if it has a key, finds it neither used nor held.
  ghost predicate ReadyToCredit(w: W.State, t: nat) {
    && t in w.txns && w.txns[t].req.direction == CREDIT && w.txns[t].req.Value() > 0
    && w.txns[t] == W.Start(w.txns[t].req)
    && (w.txns[t].req.Keyed() ==>
          w.txns[t].req.KeyId() !in w.db.keys && W.KeyFree(w, w.txns[t].req.KeyId(), t))
  }

  lemma {:induction false} CreditReads(from: State, s: State, t: nat) returns (w: W.State)
    requires Leads(from, s) && ReadyToCredit(s.w, t)
    ensures Leads(from, s.(w := w))
    ensures t in w.txns && w == s.w.(txns := s.w.txns[t := w.txns[t]])
    ensures var x := w.txns[t];
      x == W.Start(s.w.txns[t].req).(pc := W.Inserting, balance := x.balance)
  {
    hide Leads;
    w := s.w;
    if s.w.txns[t].req.Keyed() {
      Moves(from, s, W.CheckKeyOf(t));
      w := W.Step(s.w, W.CheckKeyOf(t));
    }
    Moves(from, s.(w := w), W.ReadBalance(t));
    w := W.Step(w, W.ReadBalance(t));
  }

  lemma {:induction false} CreditWrites(from: State, s: State, t: nat, id: nat) returns (w: W.State)
    requires Leads(from, s) && t in s.w.txns && W.IdFree(s.w, id) && s.w.txns[t].pc.Inserting?
    requires s.w.txns[t].req.Keyed() ==>
      s.w.txns[t].req.KeyId() !in s.w.db.keys && W.KeyFree(s.w, s.w.txns[t].req.KeyId(), t)
    ensures Leads(from, s.(w := w))
    ensures t in w.txns && w == s.w.(txns := s.w.txns[t := w.txns[t]]) && w.txns[t].pc.Committing?
    ensures w.txns[t].req == s.w.txns[t].req && w.txns[t].lot == Some(CreditLot(s.w.txns[t].req, id, 0))
  {
    hide Leads;
    Moves(from, s, W.Insert(t, id, 0));
    w := W.Step(s.w, W.Insert(t, id, 0));
    Moves(from, s.(w := w), W.InsertKey(t));
    w := W.Step(w, W.InsertKey(t));
  }

  // One more effect, of call t; every other call is as it was.
  ghost predicate OneMore(w: W.State, after: W.State, t: nat, lot: Lot) {
    && |after.log| == |w.log| + 1 && w.log <= after.log
    && after.log[|w.log|].txn == t && t in w.txns && after.log[|w.log|].req == w.txns[t].req
    && after.txns.Keys == w.txns.Keys && (forall u :: u in w.txns && u != t ==> after.txns[u] == w.txns[u])
    && after.txns[t].lot.None? && after.db.lots == InsertLot(w.db.lots, lot)
  }

  lemma {:induction false} CreditRuns(from: State, s: State, t: nat, id: nat) returns (w: W.State)
    requires Leads(from, s) && ReadyToCredit(s.w, t) && W.IdFree(s.w, id)
    ensures Leads(from, s.(w := w)) && OneMore(s.w, w, t, CreditLot(s.w.txns[t].req, id, 0))
    ensures w.txns.Keys == s.w.txns.Keys && forall u :: u in s.w.txns && u != t ==> w.txns[u] == s.w.txns[u]
  {
    hide Leads, InsertLot;
    var w1 := CreditReads(from, s, t);
    var w2 := CreditWrites(from, s.(w := w1), t, id);
    Moves(from, s.(w := w2), W.Commit(t, true));
    w := W.Step(w2, W.Commit(t, true));
  }

  lemma {:induction false} StaysFree(w: W.State, w2: W.State, t: nat, lot: Lot, id: nat)
    requires W.IdFree(w, lot.id) && W.IdFree(w, id) && lot.id != id && OneMore(w, w2, t, lot)
    ensures W.IdFree(w2, id)
  {
    InsertFacts(w.db.lots, lot);
  }

  // --- both begin -----------------------------------------------------------------------

  // The same but for calls that have failed.
  ghost predicate SomeFailed(w: W.State, after: W.State) {
    && after.db == w.db && after.log == w.log && after.txns.Keys == w.txns.Keys
    && (forall u :: u in w.txns && after.txns[u] != w.txns[u] ==>
          after.txns[u] == W.Finish(w.txns[u], Error(Fault)))
  }

  lemma {:induction false} FailOne(w: W.State, h: nat, k: KeyId)
    requires W.Inv(w) && h in w.txns && w.txns[h].holdsKey && w.txns[h].req.Keyed() && w.txns[h].req.KeyId() == k
    ensures W.Enabled(w, W.Fail(h)) && SomeFailed(w, W.Step(w, W.Fail(h)))
    ensures forall t :: W.KeyFree(W.Step(w, W.Fail(h)), k, t)
  {
    hide W.Inv;
    HolderIsOne(w, h);
  }

  // Whoever holds an uncommitted key can fail, and then nobody does.
  lemma {:induction false} HolderFails(s: State, k: KeyId) returns (after: State)
    requires Inv(s)
    ensures Leads(s, after) && after == s.(w := after.w) && SomeFailed(s.w, after.w)
    ensures forall t :: W.KeyFree(after.w, k, t)
  {
    assert W.Inv(s.w) by { InvParts(s); }
    hide Leads, Inv, W.Inv, W.Enabled, W.Step;
    Stay(s);
    if h :| h in s.w.txns && s.w.txns[h].holdsKey && s.w.txns[h].req.Keyed() && s.w.txns[h].req.KeyId() == k {
      FailOne(s.w, h, k);
      Moves(s, s, W.Fail(h));
      after := s.(w := W.Step(s.w, W.Fail(h)));
    } else {
      after := s;
    }
  }

  lemma {:induction false} HolderIsOne(w: W.State, h: nat)
    requires W.Inv(w) && h in w.txns && w.txns[h].holdsKey && w.txns[h].req.Keyed()
    ensures !w.txns[h].pc.Ended?
    ensures forall u :: u in w.txns && u != h && w.txns[u].holdsKey && w.txns[u].req.Keyed() ==>
              w.txns[u].req.KeyId() != w.txns[h].req.KeyId()
  {
    assert W.TxnOk(w.db, w.log, h, w.txns[h]);
    forall u | u in w.txns && u != h && w.txns[u].holdsKey && w.txns[u].req.Keyed()
      ensures w.txns[u].req.KeyId() != w.txns[h].req.KeyId()
    {
      assert W.Apart(w.txns[u], w.txns[h]);
    }
  }

  ghost predicate CanStart(s: State, id: string, p: nat, q: nat, t: nat, u: nat) {
    && id in s.orders && s.orders[id].status == PAID && s.orders[id].total > 0
    && p != q && p !in s.procs && q !in s.procs && t != u && t !in s.w.txns && u !in s.w.txns
  }

  lemma {:induction false} BothStart(from: State, s: State, id: string, p: nat, q: nat, t: nat, u: nat, a: Ask, b: Ask)
    returns (after: State)
    requires Leads(from, s) && CanStart(s, id, p, q, t, u)
    ensures Leads(from, after)
    ensures after.w == s.w.(txns := s.w.txns[t := W.Start(RequestOf(s.orders[id], a))]
                                            [u := W.Start(RequestOf(s.orders[id], b))])
    ensures after.owner == s.owner[t := OwnerOf(id, a)][u := OwnerOf(id, b)]
  {
    hide Leads;
    Go(from, s, StartRefund(p, t, id, a.refType, a.refId, a.key));
    var s1 := Step(s, StartRefund(p, t, id, a.refType, a.refId, a.key));
    Go(from, s1, StartRefund(q, u, id, b.refType, b.refId, b.key));
    after := Step(s1, StartRefund(q, u, id, b.refType, b.refId, b.key));
  }

  // --- both credit ----------------------------------------------------------------------

  // Both requests have a committed credit.
  ghost predicate BothCredited(later: State, id: string, t: nat, u: nat, a: Ask, b: Ask) {
    && t in later.owner && later.owner[t] == OwnerOf(id, a)
    && u in later.owner && later.owner[u] == OwnerOf(id, b)
    && exists i, j :: 0 <= i < |later.w.log| && 0 <= j < |later.w.log|
                      && later.w.log[i].txn == t && later.w.log[j].txn == u
  }

  // How many of the two keys still get through: the order's refund key at most once.
  ghost predicate KeysAllow(s: State, id: string, a: Ask, b: Ask)
    requires id in s.orders
  {
    if KeyOf(s, id) in s.w.db.keys then !NonEmpty(a.key) && !NonEmpty(b.key)
    else !(NonEmpty(a.key) && NonEmpty(b.key))
  }

  lemma {:induction false} AskFacts(o: Order, a: Ask)
    requires o.total > 0
    ensures var r := RequestOf(o, a);
      && r.direction == CREDIT && r.Value() == o.total && (r.Keyed() <==> NonEmpty(a.key))
      && (r.Keyed() ==> r.KeyId() == Key(o.appId, RefundKey(o.id)))
      && W.Start(r).req == r && W.Start(r).lot.None? && !W.Start(r).holdsKey
  {
  }

  // Two calls added to a machine in which nobody holds the key.
  lemma {:induction false} ReadyInPair(w: W.State, after: W.State, t: nat, u: nat, r: Request, r2: Request, k: KeyId)
    requires t != u && t !in w.txns && u !in w.txns
    requires after == w.(txns := w.txns[t := W.Start(r)][u := W.Start(r2)])
    requires forall v :: W.KeyFree(w, k, v)
    requires r.direction == CREDIT && r.Value() > 0 && (r.Keyed() ==> r.KeyId() == k && k !in w.db.keys)
    requires W.Start(r).req == r && !W.Start(r2).holdsKey
    ensures ReadyToCredit(after, t)
  {
    hide W.Start;
    assert W.KeyFree(w, k, t);
  }

  lemma {:induction false} FreeInPair(s: W.State, w: W.State, after: W.State, t: nat, u: nat, r: Request, r2: Request,
          id: nat)
    requires W.IdFree(s, id) && SomeFailed(s, w) && W.Start(r).lot.None? && W.Start(r2).lot.None?
    requires after == w.(txns := w.txns[t := W.Start(r)][u := W.Start(r2)])
    ensures W.IdFree(after, id)
  {
    hide W.Start;
  }

  lemma {:induction false} ReadyAfter(w: W.State, after: W.State, t: nat, u: nat, lot: Lot)
    requires OneMore(w, after, t, lot) && u != t && u in w.txns && w.txns[u] == W.Start(w.txns[u].req)
    requires w.txns[u].req.direction == CREDIT && w.txns[u].req.Value() > 0 && !w.txns[u].req.Keyed()
    ensures ReadyToCredit(after, u)
  {
    hide W.Start;
  }

  // The first may carry a key, the second does not.
  lemma {:induction false} CreditTwice(s: State, id: string, p: nat, q: nat, t: nat, u: nat, a: Ask, b: Ask,
          l: nat, m: nat) returns (after: State)
    requires Inv(s) && CanStart(s, id, p, q, t, u) && s.orders[id].id == id
    requires l != m && W.IdFree(s.w, l) && W.IdFree(s.w, m)
    requires !NonEmpty(b.key) && (NonEmpty(a.key) ==> KeyOf(s, id) !in s.w.db.keys)
    ensures Leads(s, after) && BothCredited(after, id, t, u, a, b)
  {
    hide Leads, Inv, InsertLot, RefundRequest, W.Start, W.IdFree, W.KeyFree, ReadyToCredit, OneMore;
    var o := s.orders[id];
    var r, r2 := RequestOf(o, a), RequestOf(o, b);
    AskFacts(o, a);
    AskFacts(o, b);
    var s1 := HolderFails(s, KeyOf(s, id));
    var s2 := BothStart(s, s1, id, p, q, t, u, a, b);
    FreeInPair(s.w, s1.w, s2.w, t, u, r, r2, l);
    FreeInPair(s.w, s1.w, s2.w, t, u, r, r2, m);
    ReadyInPair(s1.w, s2.w, t, u, r, r2, KeyOf(s, id));
    var w := CreditRuns(s, s2, t, l);
    StaysFree(s2.w, w, t, CreditLot(r, l, 0), m);
    ReadyAfter(s2.w, w, t, u, CreditLot(r, l, 0));
    var w2 := CreditRuns(s, s2.(w := w), u, m);
    after := s2.(w := w2);
    InLog(s2.w, w, w2, t, u, CreditLot(r, l, 0), CreditLot(w.txns[u].req, m, 0));
  }

  lemma {:induction false} InLog(w: W.State, w1: W.State, w2: W.State, t: nat, u: nat, lot: Lot, lot2: Lot)
    requires OneMore(w, w1, t, lot) && OneMore(w1, w2, u, lot2)
    ensures var n := |w.log|;
      |w2.log| == n + 2 && w2.log[n].txn == t && w2.log[n + 1].txn == u
  {
    assert w2.log[|w.log|] == w1.log[|w.log|];
  }

  lemma {:induction false} Swapped(later: State, id: string, t: nat, u: nat, a: Ask, b: Ask)
    requires BothCredited(later, id, u, t, b, a)
    ensures BothCredited(later, id, t, u, a, b)
  {
  }

  lemma {:induction false} OldRecordStays(s: State, later: State, id: string) returns (k: int)
    requires Reachable(s) && Leads(s, later) && id in s.orders && KeyOf(s, id) in s.w.db.keys
    ensures RecordedAs(later, id, k) && later.w.log[k].txn in s.w.txns
  {
    LeadsOnward(s, later);
    k := RowHasRecord(s, id);
    assert s.w.log[k].txn in s.w.txns by { ReachableOk(s); InvParts(s); LogCalls(s.w, k); }
    assert later.w.log[k] == s.w.log[k];
  }

  lemma {:induction false} KeyedIsRecorded(later: State, id: string, t: nat, a: Ask, i: int)
    requires Reachable(later) && 0 <= i < |later.w.log| && later.w.log[i].txn == t
    requires t in later.owner && later.owner[t] == OwnerOf(id, a) && NonEmpty(a.key)
    ensures RecordedAs(later, id, i)
  {
    hide Reachable;
    CommittedRefundIsRecorded(later, id, i);
  }

  lemma {:induction false} CreditedAsks(s: State, later: State, id: string, t: nat, u: nat, a: Ask, b: Ask)
    requires Reachable(s) && id in s.orders && Leads(s, later) && BothCredited(later, id, t, u, a, b)
    requires t != u && t !in s.w.txns && u !in s.w.txns
    ensures KeysAllow(s, id, a, b)
  {
    hide Reachable, Leads, RecordedAs;
    LeadsReach(s, later);
    var i, j :| 0 <= i < |later.w.log| && 0 <= j < |later.w.log|
                && later.w.log[i].txn == t && later.w.log[j].txn == u;
    if NonEmpty(a.key) { KeyedIsRecorded(later, id, t, a, i); }
    if NonEmpty(b.key) { KeyedIsRecorded(later, id, u, b, j); }
    if NonEmpty(a.key) && NonEmpty(b.key) { OneRecord(later, id, i, j); }
    if KeyOf(s, id) in s.w.db.keys {
      var k := OldRecordStays(s, later, id);
      if NonEmpty(a.key) { OneRecord(later, id, i, k); }
      if NonEmpty(b.key) { OneRecord(later, id, j, k); }
    }
  }

  // From every reachable state, two new refund requests for a PAID order can both credit it
  // exactly when at most one of them carries a key, and none does if the order's refund key
  // is already used.
  lemma {:induction false} DoubleCreditIff(s: State, id: string, p: nat, q: nat, t: nat, u: nat, a: Ask, b: Ask,
          l: nat, m: nat)
    requires Reachable(s) && CanStart(s, id, p, q, t, u)
    requires l != m && W.IdFree(s.w, l) && W.IdFree(s.w, m)
    ensures (exists later :: Leads(s, later) && BothCredited(later, id, t, u, a, b)) <==> KeysAllow(s, id, a, b)
  {
    if later :| Leads(s, later) && BothCredited(later, id, t, u, a, b) {
      CreditedAsks(s, later, id, t, u, a, b);
    }
    if KeysAllow(s, id, a, b) {
      VisibleOrderIsPaid(s, id);
      assert Inv(s) by { ReachableOk(s); }
      hide Leads, Reachable, Inv, BothCredited;
      if NonEmpty(b.key) {
        var after := CreditTwice(s, id, q, p, u, t, b, a, l, m);
        Swapped(after, id, t, u, a, b);
      } else {
        var after := CreditTwice(s, id, p, q, t, u, a, b, l, m);
      }
    }
  }
}
