// What holds in every state that any interleaving of wallet calls can reach.

module WalletSafety {
  import opened Prelude
  import opened WalletTables
  import opened Fifo
  import opened Points
  import opened WalletRuns

  lemma {:induction false} InitOk()
    ensures Inv(INIT)
  {
    EmptyInStep();
  }

  lemma {:induction false} StepKeepsInv(s: State, a: Action)
    requires Inv(s) && Enabled(s, a)
    ensures Inv(Step(s, a)) && s.log <= Step(s, a).log
  {
    if a.Commit? { CommitStep(s, a.t, a.heard); } else { QuietStep(s, a); }
  }

  lemma {:induction false} RunKeepsInv(s: State, acts: seq<Action>)
    requires Inv(s) && Legal(s, acts)
    ensures Inv(Run(s, acts)) && s.log <= Run(s, acts).log
    decreases |acts|
  {
    if acts != [] {
      StepKeepsInv(s, acts[0]);
      RunKeepsInv(Step(s, acts[0]), acts[1..]);
    }
  }

  ghost predicate Leads(s: State, after: State) {
    exists acts :: Legal(s, acts) && Run(s, acts) == after
  }

  ghost predicate Reachable(s: State) {
    Leads(INIT, s)
  }

  lemma {:induction false} ReachableOk(s: State)
    requires Reachable(s)
    ensures Inv(s)
  {
    var acts :| Legal(INIT, acts) && Run(INIT, acts) == s;
    InitOk();
    RunKeepsInv(INIT, acts);
  }

  // No lot goes below zero, no user has spent more than they were given, and the lots add
  // up to what the ledger says, although every balance check may have used an old value.
  lemma {:induction false} NeverOverdrawn(s: State)
    requires Reachable(s)
    ensures forall l :: l in s.db.lots ==> 0 <= l.remaining <= l.initial
    ensures forall u :: Total(s.db.ledger, OfUser(u, DEBIT)) <= Total(s.db.ledger, OfUser(u, CREDIT))
    ensures forall u :: Total(s.db.ledger, OfUser(u, CREDIT)) - Total(s.db.ledger, OfUser(u, DEBIT))
                        == Balance(s.db.lots, u)
  {
    ReachableOk(s);
    forall u { BalanceNonNegative(s.db.lots, u); }
    forall l | l in s.db.lots ensures 0 <= l.remaining <= l.initial {
      assert LotReconciled(s.db.ledger, l);
    }
  }

  // Each lot was credited once, for its initial amount, and has lost exactly its debits.
  lemma {:induction false} LotsMatchLedger(s: State, l: Lot)
    requires Reachable(s) && l in s.db.lots
    ensures Count(s.db.ledger, OfLot(l.id, CREDIT)) == 1
    ensures Total(s.db.ledger, OfLot(l.id, CREDIT)) == l.initial
    ensures l.remaining == l.initial - Total(s.db.ledger, OfLot(l.id, DEBIT))
  {
    ReachableOk(s);
    assert LotReconciled(s.db.ledger, l);
  }

  // The ledger is the committed calls' entries end to end; each call committed at most once,
  // its entries carry its fields and move exactly its amount; and no two calls of one app
  // have committed under the same non-empty key.
  lemma {:induction false} OneEffectPerKey(s: State)
    requires Reachable(s)
    ensures s.db.ledger == Flatten(s.log)
    ensures forall i :: 0 <= i < |s.log| ==> EntrySum(s.log[i].entries) == s.log[i].req.fields.amount.value > 0
    ensures forall i, e :: 0 <= i < |s.log| && e in s.log[i].entries ==> EntryOf(s.log[i].req, e)
    ensures forall i, j :: 0 <= i < j < |s.log| ==> s.log[i].txn != s.log[j].txn
    ensures forall i, j :: 0 <= i < j < |s.log| && s.log[i].req.appId == s.log[j].req.appId
                           && s.log[i].req.key == s.log[j].req.key && s.log[i].req.key.Val? ==>
              s.log[i].req.key.value == ""
  {
    ReachableOk(s);
    forall i, j | 0 <= i < j < |s.log| && s.log[i].req.appId == s.log[j].req.appId
                  && s.log[i].req.key == s.log[j].req.key && s.log[i].req.key.Val?
      ensures s.log[i].req.key.value == ""
    {
      assert !SameKey(s.log[i].req, s.log[j].req);
    }
  }

  // The entry's columns are the request's fields.
  ghost predicate EntryOf(req: Request, e: Entry) {
    && e.appId == req.appId && e.userId == req.fields.userId && e.direction == req.direction
    && e.reason == req.fields.reason && e.refType == req.fields.refType && e.refId == req.fields.refId
  }

  // What an ended call may tell its client, now and in every later state: Done, that its
  // own effect is in the ledger; Replay, that it changed nothing and the response of a
  // committed call of its app with the same non-empty key and hashed fields is returned;
  // KeyReused, that it changed nothing and such a call with other fields has committed;
  // Unheard, that its effect is in the ledger; any other error, that it changed nothing.
  lemma {:induction false} OutcomesHold(s: State, t: nat, acts: seq<Action>)
    requires Reachable(s) && t in s.txns && s.txns[t].pc.Ended? && Legal(s, acts)
    ensures var log, x := Run(s, acts).log, s.txns[t];
      var out, key := x.pc.outcome, x.req.key;
      && t in Run(s, acts).txns && Run(s, acts).txns[t] == x
      && (out.Done? || out == Error(Unheard) <==> exists i :: 0 <= i < |log| && log[i].txn == t)
      && (out.Done? ==>
            exists i :: 0 <= i < |log| && log[i].txn == t && log[i].req == x.req && log[i].Reply() == out.response)
      && (out.Replay? ==>
            && key.Val? && key.value != ""
            && exists i :: 0 <= i < |log| && log[i].req.appId == x.req.appId && log[i].req.key == key
                           && log[i].req.fields == x.req.fields && log[i].Reply() == out.response)
      && (out == Error(KeyReused) ==>
            && key.Val? && key.value != ""
            && exists i :: 0 <= i < |log| && log[i].req.appId == x.req.appId && log[i].req.key == key
                           && log[i].req.fields != x.req.fields)
  {
    OutcomeStays(s, t, acts);
    hide Reachable, Run, Legal;
    var log, x := Run(s, acts).log, s.txns[t];
    match x.pc.outcome
    case Done(_) =>
    case Replay(r) =>
      var i :| 0 <= i < |log| && SameKey(log[i].req, x.req) && log[i].req.fields == x.req.fields && log[i].Reply() == r;
      assert log[i].req.key == x.req.key;
    case Error(f) =>
      if f == KeyReused {
        var i :| 0 <= i < |log| && SameKey(log[i].req, x.req) && log[i].req.fields != x.req.fields;
        assert log[i].req.key == x.req.key;
      }
  }

  lemma {:induction false} OutcomeStays(s: State, t: nat, acts: seq<Action>)
    requires Reachable(s) && t in s.txns && s.txns[t].pc.Ended? && Legal(s, acts)
    ensures var later := Run(s, acts);
      && t in later.txns && later.txns[t] == s.txns[t]
      && OutcomeOk(later.log, t, s.txns[t].req, s.txns[t].pc.outcome)
  {
    ReachableOk(s);
    RunKeepsInv(s, acts);
    EndedStays(s, t, acts);
    assert TxnOk(Run(s, acts).db, Run(s, acts).log, t, s.txns[t]);
  }

  lemma {:induction false} ReplyDirection(e: Effect)
    requires Carries(e.req, e.entries)
    ensures OfDebit(e.Reply()) <==> e.req.direction == DEBIT
  {
  }

  // A replay answers with a debit's response exactly when the one committed call of its app
  // under its key was a debit, whichever the replayed call asked for.
  lemma {:induction false} ReplayTellsDirection(s: State, t: nat)
    requires Reachable(s) && t in s.txns && s.txns[t].pc.Ended? && s.txns[t].pc.outcome.Replay?
    ensures var r, x := s.txns[t].pc.outcome.response, s.txns[t];
      && x.req.key.Val? && x.req.key.value != ""
      && (exists i :: 0 <= i < |s.log| && s.log[i].req.appId == x.req.appId && s.log[i].req.key == x.req.key)
      && forall i :: 0 <= i < |s.log| && s.log[i].req.appId == x.req.appId && s.log[i].req.key == x.req.key ==>
           r == s.log[i].Reply() && (OfDebit(r) <==> s.log[i].req.direction == DEBIT)
  {
    var r, x := s.txns[t].pc.outcome.response, s.txns[t];
    assert Run(s, []) == s && Legal(s, []);
    OutcomesHold(s, t, []);
    OneEffectPerKey(s);
    var k :| 0 <= k < |s.log| && s.log[k].req.appId == x.req.appId && s.log[k].req.key == x.req.key
             && s.log[k].Reply() == r;
    forall i | 0 <= i < |s.log| && s.log[i].req.appId == x.req.appId && s.log[i].req.key == x.req.key
      ensures r == s.log[i].Reply() && (OfDebit(r) <==> s.log[i].req.direction == DEBIT)
    {
      assert i == k;
      assert Carries(s.log[i].req, s.log[i].entries) by { ReachableOk(s); }
      ReplyDirection(s.log[i]);
    }
  }

  lemma {:induction false} EndedStays(s: State, t: nat, acts: seq<Action>)
    requires t in s.txns && s.txns[t].pc.Ended? && Legal(s, acts)
    ensures t in Run(s, acts).txns && Run(s, acts).txns[t] == s.txns[t]
    decreases |acts|
  {
    if acts != [] {
      EndedStays(Step(s, acts[0]), t, acts[1..]);
    }
  }

  // No lot row is ever held by two calls.
  lemma {:induction false} RowsHeldOnce(s: State, t: nat, u: nat, id: nat)
    requires Reachable(s) && t in s.txns && u in s.txns && t != u
    ensures !(id in s.txns[t].locked && id in s.txns[u].locked)
  {
    ReachableOk(s);
    assert Apart(s.txns[t], s.txns[u]);
  }

  // A committing debit takes its amount oldest first from the rows it holds: rows of its
  // user in order of age, unchanged since they were read; all touched rows but the last are
  // drained. Which of the user's lots it holds is the subject of WalletFifo.
  lemma {:induction false} CommittedDebitIsFifo(s: State, t: nat)
    requires Reachable(s) && t in s.txns && s.txns[t].pc.Committing? && s.txns[t].req.direction == DEBIT
    ensures var x := s.txns[t];
      && Current(s.db.lots, x.rows, x.req.User()) && SortedByAge(x.rows)
      && |x.pieces| <= |x.rows| && Spent(x.pieces) == x.req.Value()
      && (forall i :: 0 <= i < |x.pieces| ==>
            x.pieces[i].lotId == x.rows[i].id && x.pieces[i].amount > 0
            && 0 <= x.pieces[i].left == x.rows[i].remaining - x.pieces[i].amount)
      && (forall i :: 0 <= i < |x.pieces| - 1 ==> x.pieces[i].left == 0)
  {
    ReachableOk(s);
    var x := s.txns[t];
    assert TxnOk(s.db, s.log, t, x);
    WholePieces(s.db.lots, x);
    PiecesFacts(x.rows, x.req.Value());
  }

  // --- snapshots under concurrency ------------------------------------------------------

  lemma {:induction false} CarriedTotal(req: Request, es: seq<Entry>, u: string, d: Direction)
    requires forall e :: e in es ==> e.userId == req.User() && e.direction == req.direction
    ensures Total(es, OfUser(u, d)) == if u == req.User() && d == req.direction then EntrySum(es) else 0
  {
    if es != [] {
      assert es[0] in es;
      CarriedTotal(req, es[1..], u, d);
      TotalAppend([es[0]], es[1..], OfUser(u, d));
      assert es == [es[0]] + es[1..] && [es[0]][..0] == [];
    }
  }

  lemma {:induction false} CommitBalance(s: State, t: nat, heard: bool)
    requires Inv(s) && Enabled(s, Commit(t, heard))
    ensures var x := s.txns[t];
      Balance(Step(s, Commit(t, heard)).db.lots, x.req.User())
      == Balance(s.db.lots, x.req.User()) + (if x.req.direction == CREDIT then x.req.Value() else -x.req.Value())
  {
    var x := s.txns[t];
    var u := x.req.User();
    assert TxnOk(s.db, s.log, t, x);
    CommitReconciles(s.db, x);
    CarriedTotal(x.req, x.entries, u, CREDIT);
    CarriedTotal(x.req, x.entries, u, DEBIT);
    TotalAppend(s.db.ledger, x.entries, OfUser(u, CREDIT));
    TotalAppend(s.db.ledger, x.entries, OfUser(u, DEBIT));
  }

  lemma {:induction false} BrokenStays(ledger: seq<Entry>, more: seq<Entry>, user: string)
    requires Chain(ledger, user).None?
    ensures Chain(ledger + more, user).None?
  {
    if more == [] {
      assert ledger + more == ledger;
    } else {
      BrokenStays(ledger, more[..|more| - 1], user);
      assert (ledger + more)[..|ledger + more| - 1] == ledger + more[..|more| - 1];
    }
  }

  lemma {:induction false} ChainThroughStaleDebit(ledger: seq<Entry>, req: Request, ps: seq<Piece>, balance: int)
    requires Chain(ledger, req.User()).Some? && Chain(ledger, req.User()).value != balance && ps != []
    ensures Chain(ledger + DebitEntries(req, ps, balance), req.User()).None?
  {
    var e := DebitEntry(req, ps[0], balance - ps[0].amount);
    ChainPush(ledger, e, req.User());
    FirstEntry(ledger, req, ps, balance);
    BrokenStays(ledger + [e], DebitEntries(req, ps[1..], e.snapshot), req.User());
  }

  lemma {:induction false} WritesChainIff(db: Db, x: Txn)
    requires WritesOk(db.lots, x) && x.req.Value() > 0
    requires Chain(db.ledger, x.req.User()).Some?
    ensures Chain(db.ledger + x.entries, x.req.User())
         == if Chain(db.ledger, x.req.User()) != Some(x.balance) then None
            else Some(x.balance + (if x.req.direction == CREDIT then x.req.Value() else -x.req.Value()))
  {
    if x.req.direction == CREDIT {
      ChainPush(db.ledger, x.entries[0], x.req.User());
      assert x.entries == [x.entries[0]];
    } else {
      WholePieces(db.lots, x);
      if Chain(db.ledger, x.req.User()) == Some(x.balance) {
        ChainThroughDebit(db.ledger, x.req, x.pieces, x.balance, x.req.User());
      } else {
        ChainThroughStaleDebit(db.ledger, x.req, x.pieces, x.balance);
      }
    }
  }

  lemma {:induction false} Writing(s: State, t: nat)
    requires Reachable(s) && t in s.txns && s.txns[t].pc.Committing?
    ensures WritesOk(s.db.lots, s.txns[t]) && s.txns[t].req.Value() > 0
  {
    hide WritesOk, LogOk, Reconciled, Apart;
    ReachableOk(s);
    assert TxnOk(s.db, s.log, t, s.txns[t]);
  }

  // A commit carries its user's snapshot chain on exactly when the balance it read outside
  // the transaction is still the balance at commit time; otherwise the chain breaks there.
  lemma {:induction false} SnapshotChainIff(s: State, t: nat, heard: bool)
    requires Reachable(s) && t in s.txns && s.txns[t].pc.Committing?
    requires var u := s.txns[t].req.User(); Chain(s.db.ledger, u) == Some(Balance(s.db.lots, u))
    ensures var x, after := s.txns[t], Step(s, Commit(t, heard)).db;
      Chain(after.ledger, x.req.User())
      == if x.balance == Balance(s.db.lots, x.req.User()) then Some(Balance(after.lots, x.req.User())) else None
  {
    hide Inv, Chain, Balance, WritesOk, LotsAfter;
    var x := s.txns[t];
    Writing(s, t);
    assert Balance(Step(s, Commit(t, heard)).db.lots, x.req.User()) == Balance(s.db.lots, x.req.User())
        + (if x.req.direction == CREDIT then x.req.Value() else -x.req.Value()) by {
      ReachableOk(s);
      CommitBalance(s, t, heard);
    }
    WritesChainIff(s.db, x);
  }

  // --- runs step by step ----------------------------------------------------------------

  lemma {:induction false} Extend(s: State, acts: seq<Action>, a: Action)
    requires Legal(s, acts) && Enabled(Run(s, acts), a)
    ensures Legal(s, acts + [a]) && Run(s, acts + [a]) == Step(Run(s, acts), a)
    decreases |acts|
  {
    if acts == [] {
      assert [a][1..] == [];
    } else {
      assert (acts + [a])[1..] == acts[1..] + [a];
      Extend(Step(s, acts[0]), acts[1..], a);
    }
  }

  lemma {:induction false} Stay(s: State)
    ensures Leads(s, s)
  {
    assert Legal(s, []) && Run(s, []) == s;
  }

  // From a state a run leads to, one more step.
  lemma {:induction false} Go(from: State, s: State, a: Action)
    requires Leads(from, s) && Enabled(s, a)
    ensures Leads(from, Step(s, a))
  {
    var acts :| Legal(from, acts) && Run(from, acts) == s;
    Extend(from, acts, a);
  }

  // A keyless credit that has read its balance can go on to commit, whatever the others do.
  function AfterCredit(s: State, t: nat, id: nat, now: int): State
    requires t in s.txns
  {
    var x := s.txns[t];
    var entry := CreditEntry(x.req, id, x.balance + x.req.Value());
    State(s.db.(lots := InsertLot(s.db.lots, CreditLot(x.req, id, now)), ledger := s.db.ledger + [entry]),
          s.txns[t := Finish(x, Done(Single(entry)))], s.log + [Effect(t, x.req, [entry])])
  }

  lemma {:induction false} CreditWrites(from: State, s: State, t: nat, id: nat, now: int) returns (s2: State)
    requires Leads(from, s) && t in s.txns && IdFree(s, id)
    requires s.txns[t].pc.Inserting? && !s.txns[t].req.Keyed()
    ensures Leads(from, s2)
    ensures var x := s.txns[t];
      s2 == s.(txns := s.txns[t := x.(pc := Committing, lot := Some(CreditLot(x.req, id, now)),
                                      entries := [CreditEntry(x.req, id, x.balance + x.req.Value())])])
  {
    var s1 := Step(s, Insert(t, id, now));
    Go(from, s, Insert(t, id, now));
    s2 := Step(s1, InsertKey(t));
    Go(from, s1, InsertKey(t));
  }

  lemma {:induction false} CreditCommits(from: State, s: State, t: nat, id: nat, now: int)
    requires Leads(from, s) && t in s.txns && IdFree(s, id)
    requires s.txns[t].pc.Inserting? && s.txns[t].req.direction == CREDIT && !s.txns[t].req.Keyed()
    ensures Leads(from, AfterCredit(s, t, id, now))
  {
    var s2 := CreditWrites(from, s, t, id, now);
    Go(from, s2, Commit(t, true));
    assert Step(s2, Commit(t, true)).txns == AfterCredit(s, t, id, now).txns;
  }

  // The chain does break: two credits that both read a balance of 0 both record the same
  // snapshot, and the user ends up with twice that.
  lemma {:induction false} SnapshotsCanCollide(req: Request)
    requires req.direction == CREDIT && req.Value() > 0 && !req.Keyed()
    ensures exists s :: Reachable(s) && |s.db.ledger| == 2 && s.db.ledger[0].snapshot == s.db.ledger[1].snapshot
                        && Chain(s.db.ledger, req.User()).None? && Balance(s.db.lots, req.User()) == 2 * req.Value()
  {
    var x := Start(req).(pc := Inserting);
    var s4 := INIT.(txns := map[0 := x, 1 := x]);
    BothRead(req);
    CreditCommits(INIT, s4, 0, 0, 0);
    var s7 := AfterCredit(s4, 0, 0, 0);
    var lot, entry := CreditLot(req, 0, 0), CreditEntry(req, 0, req.Value());
    InsertFacts([], lot);
    assert s7.txns[1] == x;
    CreditCommits(INIT, s7, 1, 1, 1);
    var s10 := AfterCredit(s7, 1, 1, 1);
    InsertFacts(s7.db.lots, CreditLot(req, 1, 1));
    ChainPush([], entry, req.User());
    ChainPush([entry], entry.(lotId := 1), req.User());
    assert s7.db.ledger == [entry] && s10.db.ledger == [entry] + [entry.(lotId := 1)];
    assert Reachable(s10);
  }

  lemma {:induction false} BothRead(req: Request)
    requires req.direction == CREDIT && req.Value() > 0 && !req.Keyed()
    ensures var x := Start(req).(pc := Inserting);
      var s := INIT.(txns := map[0 := x, 1 := x]);
      Reachable(s)
  {
    Stay(INIT);
    var x := Start(req);
    var s1 := INIT.(txns := map[0 := x]);
    Go(INIT, INIT, Begin(0, req));
    assert Step(INIT, Begin(0, req)) == s1;
    var s2 := INIT.(txns := map[0 := x, 1 := x]);
    Go(INIT, s1, Begin(1, req));
    assert Step(s1, Begin(1, req)) == s2;
    var s3 := INIT.(txns := map[0 := x.(pc := Inserting), 1 := x]);
    Go(INIT, s2, ReadBalance(0));
    assert Step(s2, ReadBalance(0)) == s3;
    Go(INIT, s3, ReadBalance(1));
  }
}
