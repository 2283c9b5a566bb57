// What holds in every state that any interleaving of orders, refunds and wallet calls, with
// crashes anywhere, can reach.

module OrderSafety {
  import opened Prelude
  import opened JsValues
  import opened WalletTables
  import opened Fifo
  import opened Points
  import opened Orders
  import opened OrderRuns
  import W = WalletRuns
  import WalletSafety

  ghost predicate Leads(s: State, after: State) {
    exists acts :: Legal(s, acts) && Run(s, acts) == after
  }

  ghost predicate Reachable(s: State) {
    Leads(INIT, s)
  }

  lemma {:induction false} ReachableOk(s: State)
    requires Reachable(s)
    ensures Inv(s)
  {
    var acts :| Legal(INIT, acts) && Run(INIT, acts) == s;
    WalletSafety.InitOk();
    RunKeepsInv(INIT, acts);
  }

  // --- a visible order is paid for, once, in full ---------------------------------------

  ghost predicate Creates(s: State, i: int, id: string)
    requires 0 <= i < |s.w.log|
  {
    var t := s.w.log[i].txn;
    t in s.owner && s.owner[t].CreateOf? && s.owner[t].order.id == id
  }

  lemma {:induction false} DoneInLog(w: W.State, t: nat) returns (i: int)
    requires W.Inv(w) && t in w.txns && w.txns[t].pc.Ended? && w.txns[t].pc.outcome.Done?
    ensures 0 <= i < |w.log| && w.log[i].txn == t && w.log[i].req == w.txns[t].req
    ensures W.Carries(w.log[i].req, w.log[i].entries)
    ensures forall j :: 0 <= j < |w.log| && w.log[j].txn == t ==> j == i
  {
    assert W.TxnOk(w.db, w.log, t, w.txns[t]);
    i :| 0 <= i < |w.log| && w.log[i].txn == t && w.log[i].req == w.txns[t].req;
  }

  lemma {:induction false} LogOwned(w: W.State)
    requires W.Inv(w)
    ensures forall j :: 0 <= j < |w.log| ==> w.log[j].txn in w.txns
  {
  }

  lemma {:induction false} OneCreation(s: State, id: string, t: nat) returns (i: int)
    requires W.Inv(s.w) && OwnersOk(s) && PaidBy(s, id, t)
    ensures 0 <= i < |s.w.log| && s.w.log[i].txn == t && s.w.log[i].req == s.w.txns[t].req
    ensures W.Carries(s.w.log[i].req, s.w.log[i].entries)
    ensures Creates(s, i, id) || s.orders[id].id != id
    ensures forall j :: 0 <= j < |s.w.log| && Creates(s, j, id) && s.orders[id].id == id ==> j == i
  {
    hide W.Inv;
    i := DoneInLog(s.w, t);
    assert forall j :: 0 <= j < |s.w.log| ==> s.w.log[j].txn in s.w.txns by { LogOwned(s.w); }
    forall j | 0 <= j < |s.w.log| && Creates(s, j, id) && s.orders[id].id == id ensures j == i {
      assert s.w.log[j].txn == t;
    }
  }

  // Every order anyone can see is PAID or REFUNDED, and exactly one committed debit was
  // made by its creation: for price times quantity of an active product of its app, its
  // ledger entries carrying the order's id and adding up to that amount.
  lemma {:induction false} VisibleOrderIsPaid(s: State, id: string)
    requires Reachable(s) && id in s.orders
    ensures s.orders[id].id == id && (s.orders[id].status == PAID || s.orders[id].status == REFUNDED)
    ensures exists i ::
      && 0 <= i < |s.w.log| && Creates(s, i, id)
      && (forall j :: 0 <= j < |s.w.log| && Creates(s, j, id) ==> j == i)
      && PaysFor(s.w.log[i], s.orders[id], s.owner[s.w.log[i].txn].product)
  {
    hide W.Inv, OwnersOk;
    assert W.Inv(s.w) && OwnersOk(s) && OrdersOk(s) by { ReachableOk(s); InvParts(s); }
    var t :| PaidBy(s, id, t);
    OwnerFits(s, t);
    var i := OneCreation(s, id, t);
    assert PaysFor(s.w.log[i], s.orders[id], s.owner[t].product);
  }

  ghost predicate PaysFor(e: W.Effect, o: Order, product: Product) {
    && e.req.direction == DEBIT && W.Carries(e.req, e.entries) && EntrySum(e.entries) == o.total
    && product.id == o.productId && product.isActive && product.appId == o.appId
    && o.total == product.price * o.quantity
    && forall x :: x in e.entries ==>
         x.userId == o.userId && x.direction == DEBIT && x.reason == "BUY_ITEM" && x.refType == "order"
         && x.refId == o.id
  }

  function OrderRef(id: string): Selector { OfRef(DEBIT, "BUY_ITEM", "order", id) }

  // The same in the ledger: what it holds against the order's id is the order's total plus
  // whatever calls from outside booked against that id themselves.
  ghost function OutsideCharges(s: State, log: seq<W.Effect>, id: string): int {
    if log == [] then 0
    else
      var e := log[|log| - 1];
      OutsideCharges(s, log[..|log| - 1], id)
      + (if e.txn in s.owner && s.owner[e.txn].Outside? then Total(e.entries, OrderRef(id)) else 0)
  }

  ghost function OwnCharges(s: State, log: seq<W.Effect>, id: string): int {
    if log == [] then 0
    else
      var e := log[|log| - 1];
      OwnCharges(s, log[..|log| - 1], id)
      + (if e.txn in s.owner && s.owner[e.txn].CreateOf? && s.owner[e.txn].order.id == id
         then Total(e.entries, OrderRef(id)) else 0)
  }

  lemma {:induction false} NoMatch(es: seq<Entry>, sel: Selector)
    requires forall e :: e in es ==> !Matches(e, sel)
    ensures Total(es, sel) == 0
  {
    if es != [] {
      assert es[|es| - 1] in es;
      NoMatch(es[..|es| - 1], sel);
    }
  }

  lemma {:induction false} AllMatch(es: seq<Entry>, sel: Selector)
    requires forall e :: e in es ==> Matches(e, sel)
    ensures Total(es, sel) == EntrySum(es)
  {
    if es != [] {
      assert es[0] in es;
      AllMatch(es[1..], sel);
      TotalAppend([es[0]], es[1..], sel);
      assert es == [es[0]] + es[1..] && [es[0]][..0] == [];
    }
  }

  // A refund, or the creation of another order, books nothing against this order's id.
  lemma {:induction false} OthersBookNothing(s: State, e: W.Effect, id: string)
    requires e.txn in s.owner && W.Carries(e.req, e.entries) && Fits(s.orders, e.req, s.owner[e.txn])
    requires !s.owner[e.txn].Outside? && !(s.owner[e.txn].CreateOf? && s.owner[e.txn].order.id == id)
    ensures Total(e.entries, OrderRef(id)) == 0
  {
    if s.owner[e.txn].CreateOf? {
      KeysDiffer(s.owner[e.txn].order.id, id);
    }
    NoMatch(e.entries, OrderRef(id));
  }

  lemma {:induction false} ChargesSplit(s: State, log: seq<W.Effect>, id: string)
    requires forall i :: 0 <= i < |log| ==>
      log[i].txn in s.owner && W.Carries(log[i].req, log[i].entries) && Fits(s.orders, log[i].req, s.owner[log[i].txn])
    ensures Total(W.Flatten(log), OrderRef(id)) == OwnCharges(s, log, id) + OutsideCharges(s, log, id)
  {
    if log != [] {
      var before, e := log[..|log| - 1], log[|log| - 1];
      ChargesSplit(s, before, id);
      TotalAppend(W.Flatten(before), e.entries, OrderRef(id));
      if !s.owner[e.txn].Outside? && !(s.owner[e.txn].CreateOf? && s.owner[e.txn].order.id == id) {
        OthersBookNothing(s, e, id);
      }
    }
  }

  lemma {:induction false} OwnChargesOnce(s: State, log: seq<W.Effect>, id: string, i: int, total: int)
    requires -1 <= i < |log|
    requires forall j :: 0 <= j < |log| ==>
      ((log[j].txn in s.owner && s.owner[log[j].txn].CreateOf? && s.owner[log[j].txn].order.id == id) <==> j == i)
    requires i >= 0 ==> Total(log[i].entries, OrderRef(id)) == total
    ensures OwnCharges(s, log, id) == if i >= 0 then total else 0
  {
    if log != [] {
      OwnChargesOnce(s, log[..|log| - 1], id, if i == |log| - 1 then -1 else i, total);
    }
  }

  lemma {:induction false} LedgerShowsOrder(s: State, id: string)
    requires Reachable(s) && id in s.orders
    ensures Total(s.w.db.ledger, OrderRef(id)) == s.orders[id].total + OutsideCharges(s, s.w.log, id)
  {
    hide Reachable;
    VisibleOrderIsPaid(s, id);
    var i :| 0 <= i < |s.w.log| && Creates(s, i, id)
             && (forall j :: 0 <= j < |s.w.log| && Creates(s, j, id) ==> j == i)
             && PaysFor(s.w.log[i], s.orders[id], s.owner[s.w.log[i].txn].product);
    assert Total(s.w.log[i].entries, OrderRef(id)) == s.orders[id].total by {
      AllMatch(s.w.log[i].entries, OrderRef(id));
    }
    hide PaysFor;
    assert forall j :: 0 <= j < |s.w.log| ==> (Creates(s, j, id) <==> j == i);
    OwnChargesOnce(s, s.w.log, id, i, s.orders[id].total);
    LogFits(s);
    ChargesSplit(s, s.w.log, id);
  }

  lemma {:induction false} LogFits(s: State)
    requires Reachable(s)
    ensures s.w.db.ledger == W.Flatten(s.w.log)
    ensures forall i :: 0 <= i < |s.w.log| ==>
      && s.w.log[i].txn in s.owner && W.Carries(s.w.log[i].req, s.w.log[i].entries)
      && Fits(s.orders, s.w.log[i].req, s.owner[s.w.log[i].txn])
  {
    ReachableOk(s);
    forall i | 0 <= i < |s.w.log| ensures s.w.log[i].txn in s.owner
      && Fits(s.orders, s.w.log[i].req, s.owner[s.w.log[i].txn])
    {
      assert s.w.log[i].txn in s.w.txns;
      OwnerFits(s, s.w.log[i].txn);
    }
  }

  // --- crashes --------------------------------------------------------------------------

  // Whether, of a creation's last step and its crash, the one comes first.
  predicate FinishesFirst(acts: seq<Action>, p: nat)
    decreases |acts|
  {
    acts != [] && (acts[0] == FinishCreate(p) || (acts[0] != Crash(p) && FinishesFirst(acts[1..], p)))
  }

  predicate CrashesFirst(acts: seq<Action>, p: nat)
    decreases |acts|
  {
    acts != [] && (acts[0] == Crash(p) || (acts[0] != FinishCreate(p) && CrashesFirst(acts[1..], p)))
  }

  // Creation t made or may still make a debit for this order, which nobody will ever see.
  ghost predicate Abandoned(s: State, id: string, t: nat) {
    && id !in s.orders && t in s.owner && s.owner[t].CreateOf? && s.owner[t].order.id == id
    && forall q :: q in s.procs && s.procs[q].Creating? ==> s.procs[q].order.id != id
  }

  // A step changes nothing about what is already settled.
  ghost predicate Onward(s: State, later: State) {
    && s.w.log <= later.w.log
    && (forall t :: t in s.w.txns ==> t in later.w.txns)
    && (forall t :: t in s.owner ==> t in later.owner && later.owner[t] == s.owner[t])
    && (forall id :: id in s.orders ==>
          && id in later.orders
          && later.orders[id].(status := PAID) == s.orders[id].(status := PAID)
          && (s.orders[id].status == REFUNDED ==> later.orders[id].status == REFUNDED))
    && (forall id, t :: Abandoned(s, id, t) ==> Abandoned(later, id, t))
  }

  lemma {:induction false} StaysAbandoned(s: State, id: string, t: nat, a: Action)
    requires Inv(s) && Abandoned(s, id, t) && Enabled(s, a)
    ensures Abandoned(Step(s, a), id, t)
  {
    hide OwnersOk, OrdersOk, ProcsOk, ProcsApart, W.Inv, OutsideMay;
    assert t in s.w.txns by { InvParts(s); Owned(s); }
  }

  lemma {:induction false} LogGrows(s: State, a: Action)
    requires Inv(s) && Enabled(s, a)
    ensures s.w.log <= Step(s, a).w.log && forall t :: t in s.w.txns ==> t in Step(s, a).w.txns
  {
    hide OwnersOk, OrdersOk, ProcsOk, ProcsApart, W.Inv, OutsideMay, FreshId;
    if a.Wallet? {
      InvParts(s);
      WalletSafety.StepKeepsInv(s.w, a.a);
    }
  }

  lemma {:induction false} OwnersStay(s: State, a: Action)
    requires Inv(s) && Enabled(s, a)
    ensures forall t :: t in s.owner ==> t in Step(s, a).owner && Step(s, a).owner[t] == s.owner[t]
  {
    hide OwnersOk, OrdersOk, ProcsOk, ProcsApart, W.Inv, OutsideMay, FreshId;
    assert s.owner.Keys == s.w.txns.Keys by { InvParts(s); Owned(s); }
  }

  lemma {:induction false} OrdersStay(s: State, a: Action)
    requires Inv(s) && Enabled(s, a)
    ensures forall id :: id in s.orders ==>
      && id in Step(s, a).orders
      && Step(s, a).orders[id].(status := PAID) == s.orders[id].(status := PAID)
      && (s.orders[id].status == REFUNDED ==> Step(s, a).orders[id].status == REFUNDED)
  {
    hide OwnersOk, OrdersOk, W.Inv, OutsideMay, FreshId;
    InvParts(s);
    if a.FinishCreate? {
      assert ProcOk(s, s.procs[a.p]);
    }
  }

  lemma {:induction false} StepOnward(s: State, a: Action)
    requires Inv(s) && Enabled(s, a)
    ensures Onward(s, Step(s, a))
  {
    hide Inv, Enabled, Step, Abandoned;
    LogGrows(s, a);
    OwnersStay(s, a);
    OrdersStay(s, a);
    forall id, t | Abandoned(s, id, t) ensures Abandoned(Step(s, a), id, t) {
      StaysAbandoned(s, id, t, a);
    }
  }

  lemma {:induction false} RunOnward(s: State, acts: seq<Action>)
    requires Inv(s) && Legal(s, acts)
    ensures Onward(s, Run(s, acts)) && Inv(Run(s, acts))
    decreases |acts|
  {
    hide Inv, Enabled, Step, Abandoned;
    if acts != [] {
      StepOnward(s, acts[0]);
      StepKeepsInv(s, acts[0]);
      RunOnward(Step(s, acts[0]), acts[1..]);
    }
  }

  lemma {:induction false} LeadsOnward(s: State, later: State)
    requires Reachable(s) && Leads(s, later)
    ensures Onward(s, later) && Inv(later)
  {
    ReachableOk(s);
    var acts :| Legal(s, acts) && Run(s, acts) == later;
    RunOnward(s, acts);
  }

  lemma {:induction false} CrashAbandons(s: State, p: nat)
    requires Inv(s) && p in s.procs && s.procs[p].Creating?
    ensures Abandoned(Step(s, Crash(p)), s.procs[p].order.id, s.procs[p].t)
  {
    hide OwnersOk, OrdersOk, ProcsApart, W.Inv;
    InvParts(s);
    assert ProcOk(s, s.procs[p]);
    var s1 := Step(s, Crash(p));
    forall q | q in s1.procs && s1.procs[q].Creating? ensures s1.procs[q].order.id != s.procs[p].order.id {
      OthersNotThis(s, p, q);
    }
  }

  lemma {:induction false} StillCreating(s: State, p: nat, a: Action)
    requires Inv(s) && p in s.procs && s.procs[p].Creating? && Enabled(s, a)
    requires a != FinishCreate(p) && a != Crash(p)
    ensures p in Step(s, a).procs && Step(s, a).procs[p] == s.procs[p]
  {
    hide Inv, FreshId, OutsideMay;
  }

  lemma Finished(s: State, p: nat)
    requires p in s.procs && s.procs[p].Creating?
    ensures s.procs[p].order.id in Step(s, FinishCreate(p)).orders
  {
  }

  lemma {:induction false} AbandonedForGood(s: State, acts: seq<Action>, id: string, t: nat)
    requires Inv(s) && Legal(s, acts) && Abandoned(s, id, t)
    ensures Abandoned(Run(s, acts), id, t) && id !in Run(s, acts).orders
  {
    hide Inv, Legal, Run;
    RunOnward(s, acts);
  }

  lemma {:induction false} VisibleForGood(s: State, acts: seq<Action>, id: string, t: nat)
    requires Inv(s) && Legal(s, acts) && id in s.orders
    ensures !Abandoned(Run(s, acts), id, t) && id in Run(s, acts).orders
  {
    hide Inv, Legal, Run;
    RunOnward(s, acts);
  }

  lemma {:induction false} FateAlong(s: State, p: nat, acts: seq<Action>)
    requires Inv(s) && p in s.procs && s.procs[p].Creating? && Legal(s, acts)
    ensures var o, t, later := s.procs[p].order, s.procs[p].t, Run(s, acts);
      && (o.id in later.orders <==> FinishesFirst(acts, p))
      && (Abandoned(later, o.id, t) <==> CrashesFirst(acts, p))
    decreases |acts|
  {
    var o, t := s.procs[p].order, s.procs[p].t;
    if acts == [] {
      InvParts(s);
      assert ProcOk(s, s.procs[p]);
    } else {
      hide Inv, Enabled, Step, Abandoned;
      var s1 := Step(s, acts[0]);
      StepKeepsInv(s, acts[0]);
      if acts[0] == Crash(p) {
        CrashAbandons(s, p);
        AbandonedForGood(s1, acts[1..], o.id, t);
      } else if acts[0] == FinishCreate(p) {
        Finished(s, p);
        VisibleForGood(s1, acts[1..], o.id, t);
      } else {
        StillCreating(s, p, acts[0]);
        FateAlong(s1, p, acts[1..]);
      }
    }
  }

  // What becomes of a creation under way, along every continuation: its order is visible at
  // the end exactly when its last step comes before any crash of it; it is abandoned, with
  // its debit if that was or will be made, exactly when a crash comes first, be that before
  // or after the wallet has answered.
  lemma {:induction false} CreationFateIff(s: State, p: nat, acts: seq<Action>)
    requires Reachable(s) && p in s.procs && s.procs[p].Creating? && Legal(s, acts)
    ensures var o, t, later := s.procs[p].order, s.procs[p].t, Run(s, acts);
      && (o.id in later.orders <==> FinishesFirst(acts, p))
      && (Abandoned(later, o.id, t) <==> CrashesFirst(acts, p))
  {
    ReachableOk(s);
    hide Inv, Reachable, Legal, Run, Abandoned;
    FateAlong(s, p, acts);
  }

  // The process that creates the order of call t.
  ghost predicate CreatedBy(s: State, p: nat, id: string, t: nat) {
    p in s.procs && s.procs[p].Creating? && s.procs[p].t == t && s.procs[p].order.id == id
  }

  lemma {:induction false} CanFinish(s: State, p: nat, id: string, t: nat)
    requires ProcsOk(s) && CreatedBy(s, p, id, t) && t in s.w.txns && s.w.txns[t].pc.Ended?
    requires s.w.txns[t].pc.outcome.Done? || s.w.txns[t].pc.outcome == Error(Unheard)
    ensures id !in s.orders && !Abandoned(s, id, t) && id in Step(s, FinishCreate(p)).orders
    ensures s.w.txns[t].pc.outcome == Error(Unheard) || Enabled(s, FinishCreate(p))
  {
    assert ProcOk(s, s.procs[p]);
  }

  lemma {:induction false} SameCreation(s: State, q: nat, t: nat)
    requires OwnersOk(s) && ProcsOk(s) && q in s.procs && s.procs[q].Creating?
    requires t in s.owner && s.owner[t].CreateOf? && s.owner[t].order.id == s.procs[q].order.id
    ensures CreatedBy(s, q, s.procs[q].order.id, t)
  {
    assert ProcOk(s, s.procs[q]);
  }

  // In every reachable state a committed creation debit has exactly one of three fates: its
  // order is visible; its process is still at work, and can make it visible at once unless
  // the wallet's answer was lost; or it is abandoned.
  lemma {:induction false} DebitHasOneFate(s: State, i: int, id: string)
    requires Reachable(s) && 0 <= i < |s.w.log| && Creates(s, i, id)
    ensures var t := s.w.log[i].txn;
      && t in s.w.txns && s.w.log[i].req.direction == DEBIT && s.w.log[i].req.Value() == s.owner[t].order.total
      && (id in s.orders || Abandoned(s, id, t) || exists p :: CreatedBy(s, p, id, t))
      && !(id in s.orders && Abandoned(s, id, t))
      && (forall p :: CreatedBy(s, p, id, t) ==>
            && id !in s.orders && !Abandoned(s, id, t)
            && s.w.txns[t].pc.Ended?
            && (s.w.txns[t].pc.outcome == Error(Unheard) || Enabled(s, FinishCreate(p)))
            && id in Step(s, FinishCreate(p)).orders)
  {
    var t := s.w.log[i].txn;
    assert Inv(s) by { ReachableOk(s); }
    InvParts(s);
    hide Reachable, Inv, W.Inv, OrdersOk, ProcsApart, OwnersOk, FreshId, OutsideMay, KeyAlone;
    Owned(s);
    LogCalls(s.w, i);
    OwnerFits(s, t);
    LoggedIsDone(s.w, i);
    hide Enabled, Step;
    forall p | CreatedBy(s, p, id, t)
      ensures id !in s.orders && !Abandoned(s, id, t) && id in Step(s, FinishCreate(p)).orders
      ensures s.w.txns[t].pc.outcome == Error(Unheard) || Enabled(s, FinishCreate(p))
    {
      CanFinish(s, p, id, t);
    }
    if id !in s.orders && !Abandoned(s, id, t) {
      var q :| q in s.procs && s.procs[q].Creating? && s.procs[q].order.id == id;
      SameCreation(s, q, t);
    }
  }

  lemma {:induction false} LogCalls(w: W.State, i: int)
    requires W.Inv(w) && 0 <= i < |w.log|
    ensures w.log[i].txn in w.txns && w.txns[w.log[i].txn].req == w.log[i].req
  {
  }

  // A call whose effect is committed has ended, with an answer or with a lost one.
  lemma {:induction false} LoggedIsDone(w: W.State, i: int)
    requires W.Inv(w) && 0 <= i < |w.log|
    ensures var t := w.log[i].txn;
      t in w.txns && w.txns[t].pc.Ended? && (w.txns[t].pc.outcome.Done? || w.txns[t].pc.outcome == Error(Unheard))
  {
    hide Reconciled, W.LogOk, W.Apart;
    var t := w.log[i].txn;
    assert W.TxnOk(w.db, w.log, t, w.txns[t]);
  }

  // --- runs step by step ----------------------------------------------------------------

  lemma {:induction false} Go(from: State, s: State, a: Action)
    requires Leads(from, s) && Enabled(s, a)
    ensures Leads(from, Step(s, a))
  {
    var acts :| Legal(from, acts) && Run(from, acts) == s;
    Extend(from, acts, a);
  }

  lemma {:induction false} Extend(s: State, acts: seq<Action>, a: Action)
    requires Legal(s, acts) && Enabled(Run(s, acts), a)
    ensures Legal(s, acts + [a]) && Run(s, acts + [a]) == Step(Run(s, acts), a)
    decreases |acts|
  {
    if acts == [] {
      assert [a][1..] == [];
    } else {
      assert (acts + [a])[1..] == acts[1..] + [a];
      Extend(Step(s, acts[0]), acts[1..], a);
    }
  }

  lemma {:induction false} Stay(s: State)
    ensures Leads(s, s)
  {
    assert Legal(s, []) && Run(s, []) == s;
  }

  lemma {:induction false} Concat(s: State, a: seq<Action>, b: seq<Action>)
    requires Legal(s, a) && Legal(Run(s, a), b)
    ensures Legal(s, a + b) && Run(s, a + b) == Run(Run(s, a), b)
    decreases |a|
  {
    if a == [] {
      assert a + b == b;
    } else {
      assert (a + b)[1..] == a[1..] + b;
      Concat(Step(s, a[0]), a[1..], b);
    }
  }

  lemma {:induction false} LeadsReach(s: State, later: State)
    requires Reachable(s) && Leads(s, later)
    ensures Reachable(later)
  {
    var a :| Legal(INIT, a) && Run(INIT, a) == s;
    var b :| Legal(s, b) && Run(s, b) == later;
    Concat(INIT, a, b);
  }
}
