// A wallet call that nobody disturbs does, step by step, what the service's methods do in
// one go: the interleaving model and the methods describe the same code.

module WalletSolo {
  import opened Prelude
  import opened WalletTables
  import opened Fifo
  import opened Points
  import opened WalletRuns
  import opened WalletSafety

  // Nobody else is under way.
  ghost predicate Quiet(s: State) {
    forall u :: u in s.txns ==>
      s.txns[u].pc.Ended? && s.txns[u].locked == {} && s.txns[u].lot.None? && !s.txns[u].holdsKey
  }

  lemma {:induction false} EndedHoldsNothing(db: Db, log: seq<Effect>, t: nat, x: Txn)
    requires TxnOk(db, log, t, x) && x.pc.Ended?
    ensures x.locked == {} && x.lot.None? && !x.holdsKey
  {
    hide OutcomeOk;
  }

  lemma {:induction false} AllEndedIsQuiet(s: State)
    requires Inv(s) && forall u :: u in s.txns ==> s.txns[u].pc.Ended?
    ensures Quiet(s) && Reconciled(s.db)
  {
    hide TxnOk, LogOk, Apart, Reconciled;
    forall u | u in s.txns ensures s.txns[u].locked == {} && s.txns[u].lot.None? && !s.txns[u].holdsKey {
      EndedHoldsNothing(s.db, s.log, u, s.txns[u]);
    }
  }

  function With(s: State, t: nat, x: Txn): State {
    s.(txns := s.txns[t := x])
  }

  lemma {:induction false} Next(from: State, s: State, t: nat, x: Txn, a: Action)
    requires Leads(from, With(s, t, x)) && a.t == t && !a.Begin? && !a.Commit? && Enabled(With(s, t, x), a)
    ensures Leads(from, With(s, t, Advance(s.db, x, a)))
  {
    Go(from, With(s, t, x), a);
    assert Step(With(s, t, x), a) == With(s, t, Advance(s.db, x, a));
  }

  lemma {:induction false} Starts(s: State, t: nat, req: Request)
    requires t !in s.txns
    ensures Leads(s, With(s, t, Start(req)))
  {
    Stay(s);
    Go(s, s, Begin(t, req));
  }

  // Start, and the key lookup if there is a key.
  function Opened(db: Db, req: Request): Txn {
    var x := Start(req);
    if x.pc.Checking? then Advance(db, x, CheckKeyOf(0)) else x
  }

  lemma {:induction false} Opens(from: State, s: State, t: nat, req: Request)
    requires t !in s.txns && Leads(from, With(s, t, Start(req)))
    ensures Leads(from, With(s, t, Opened(s.db, req)))
  {
    if Start(req).pc.Checking? {
      Next(from, s, t, Start(req), CheckKeyOf(t));
    }
  }

  function Ids(rows: seq<Lot>): seq<nat> {
    if rows == [] then [] else [rows[0].id] + Ids(rows[1..])
  }

  lemma {:induction false} IdsAt(rows: seq<Lot>)
    ensures |Ids(rows)| == |rows| && forall i :: 0 <= i < |rows| ==> Ids(rows)[i] == rows[i].id
  {
    if rows != [] {
      IdsAt(rows[1..]);
      assert forall i :: 0 < i < |rows| ==> rows[i] == rows[1..][i - 1];
    }
  }

  lemma {:induction false} SelectsAvailable(db: Db, user: string)
    requires Reconciled(db)
    ensures Selects(db.lots, user, Ids(Available(db.lots, user)))
  {
    var rows := Available(db.lots, user);
    IdsAt(rows);
    AvailableFacts(db.lots, user);
    AvailableKeepsOrder(db.lots, user);
    AvailableInTable(db, user);
    var ids := Ids(rows);
    forall i | 0 <= i < |ids| ensures Lookup(db.lots, ids[i]) == Some(rows[i]) {
      assert rows[i] in rows;
    }
    forall id ensures id in ids <==> Lookup(db.lots, id).Some? && IsAvailable(Lookup(db.lots, id).value, user) {
      if id in ids {
        var i :| 0 <= i < |ids| && ids[i] == id;
        assert rows[i] in rows;
      } else if Lookup(db.lots, id).Some? {
        assert forall i :: 0 <= i < |rows| ==> rows[i].id == ids[i] && ids[i] in ids;
      }
    }
  }

  lemma {:induction false} LocksOne(from: State, s: State, t: nat, x: Txn)
    requires Quiet(s) && t !in s.txns && Leads(from, With(s, t, x)) && x.pc.Locking?
    ensures Leads(from, With(s, t, Advance(s.db, x, LockNext(t))))
  {
    Next(from, s, t, x, LockNext(t));
  }

  lemma {:induction false} LocksAll(from: State, s: State, t: nat, x: Txn, rows: seq<Lot>) returns (y: Txn)
    requires Quiet(s) && t !in s.txns && Leads(from, With(s, t, x)) && x.pc == Locking(Ids(rows))
    requires forall r :: r in rows ==> Lookup(s.db.lots, r.id) == Some(r) && IsAvailable(r, x.req.User())
    ensures Leads(from, With(s, t, y))
    ensures y == x.(pc := Looping, locked := y.locked, rows := x.rows + rows)
    decreases |rows|
  {
    hide Leads;
    LocksOne(from, s, t, x);
    y := Advance(s.db, x, LockNext(t));
    if rows == [] {
      assert x.rows + rows == x.rows;
    } else {
      assert rows[0] in rows && Ids(rows)[1..] == Ids(rows[1..]);
      y := LocksAll(from, s, t, y, rows[1..]);
      assert x.rows + [rows[0]] + rows[1..] == x.rows + rows;
    }
  }

  ghost predicate InLoop(x: Txn) {
    x.pc.Looping? && |x.pieces| <= |x.rows| && Midway(x.req, x.rows, x.pieces, x.left, x.balance, x.entries)
  }

  lemma {:induction false} TurnKeepsLoop(db: Db, x: Txn, t: nat)
    requires InLoop(x) && x.left != 0 && |x.pieces| < |x.rows|
    ensures InLoop(Advance(db, x, Turn(t)))
  {
    hide Midway, Spent;
    LoopTurns(x.req, x.rows, x.pieces, x.left, x.balance, x.entries);
  }

  lemma {:induction false} LoopsThrough(from: State, s: State, t: nat, x: Txn) returns (y: Txn)
    requires t !in s.txns && Leads(from, With(s, t, x)) && InLoop(x)
    ensures Leads(from, With(s, t, y)) && InLoop(y)
    ensures y.left == 0 || |y.pieces| == |y.rows|
    ensures y == x.(left := y.left, pieces := y.pieces, entries := y.entries)
    decreases |x.rows| - |x.pieces|
  {
    if x.left == 0 || |x.pieces| == |x.rows| {
      y := x;
    } else {
      TurnKeepsLoop(s.db, x, t);
      Next(from, s, t, x, Turn(t));
      y := LoopsThrough(from, s, t, Advance(s.db, x, Turn(t)));
    }
  }

  // Key insert and commit of a call nobody competes with.
  lemma {:induction false} Commits(from: State, s: State, t: nat, x: Txn) returns (after: State)
    requires Quiet(s) && t !in s.txns && Leads(from, With(s, t, x)) && x.pc.Saving?
    requires x.req.Keyed() ==> x.req.KeyId() !in s.db.keys
    ensures Leads(from, after) && after.db == CommitDb(s.db, x)
    ensures after.txns.Keys == s.txns.Keys + {t} && after.txns[t].pc == Ended(Done(ReplyOf(x)))
    ensures after.log == s.log + [Effect(t, x.req, x.entries)]
  {
    hide Leads, InsertLot, ApplyPieces;
    Next(from, s, t, x, InsertKey(t));
    var y := Advance(s.db, x, InsertKey(t));
    Go(from, With(s, t, y), Commit(t, true));
    after := Step(With(s, t, y), Commit(t, true));
  }

  lemma {:induction false} ReadsBalance(from: State, s: State, t: nat, req: Request) returns (y: Txn)
    requires t !in s.txns && Opened(s.db, req).pc.Reading? && Leads(from, With(s, t, Start(req)))
    ensures y == Advance(s.db, Opened(s.db, req), ReadBalance(t)) && Leads(from, With(s, t, y))
  {
    Opens(from, s, t, req);
    Next(from, s, t, Opened(s.db, req), ReadBalance(t));
    y := Advance(s.db, Opened(s.db, req), ReadBalance(t));
  }

  lemma {:induction false} SelectsRows(from: State, s: State, t: nat, x: Txn) returns (y: Txn)
    requires Quiet(s) && Reconciled(s.db) && t !in s.txns && Leads(from, With(s, t, x))
    requires x.pc.Querying? && x.rows == [] && x.pieces == [] && x.entries == [] && x.req.Value() > 0
    ensures Leads(from, With(s, t, y)) && InLoop(y)
    ensures y == x.(pc := Looping, left := x.req.Value(), locked := y.locked, seen := LotIds(s.db.lots),
                    rows := Available(s.db.lots, x.req.User()))
  {
    hide Leads, Reconciled, Selects, Lookup, Available, Ids, Midway, DistinctIds;
    var user, rows := x.req.User(), Available(s.db.lots, x.req.User());
    SelectsAvailable(s.db, user);
    AvailableInTable(s.db, user);
    Next(from, s, t, x, Select(t, Ids(rows)));
    y := LocksAll(from, s, t, Advance(s.db, x, Select(t, Ids(rows))), rows);
    assert [] + rows == rows;
    LoopStarts(x.req, rows, x.balance);
  }

  lemma {:induction false} SoloLoop(from: State, s: State, t: nat, x: Txn) returns (y: Txn)
    requires Quiet(s) && Reconciled(s.db) && t !in s.txns && Leads(from, With(s, t, x))
    requires x.pc.Querying? && x.rows == [] && x.pieces == [] && x.entries == []
    requires 0 < x.req.Value() <= Balance(s.db.lots, x.req.User())
    ensures Leads(from, With(s, t, y)) && y.pc.Looping? && y.left == 0
    ensures y.pieces == Pieces(Available(s.db.lots, x.req.User()), x.req.Value())
    ensures y.entries == DebitEntries(x.req, y.pieces, x.balance) && Spent(y.pieces) == x.req.Value()
    ensures y.req == x.req && y.lot == x.lot
  {
    y := SelectsRows(from, s, t, x);
    y := LoopsThrough(from, s, t, y);
    LoopEnds(y.req, y.rows, y.pieces, y.left, y.balance, y.entries);
    AvailableFacts(s.db.lots, x.req.User());
    PiecesFacts(y.rows, x.req.Value());
  }

  lemma {:induction false} LeavesLoop(from: State, s: State, t: nat, y: Txn)
    requires t !in s.txns && Leads(from, With(s, t, y)) && y.pc.Looping? && y.left == 0
    ensures Leads(from, With(s, t, y.(pc := Saving)))
  {
    Next(from, s, t, y, EndLoop(t));
  }

  lemma {:induction false} InsertsLot(from: State, s: State, t: nat, x: Txn, id: nat, now: int)
    requires Quiet(s) && t !in s.txns && Leads(from, With(s, t, x)) && x.pc.Inserting?
    requires x.lot.None? && Lookup(s.db.lots, id).None?
    ensures Leads(from, With(s, t, Advance(s.db, x, Insert(t, id, now))))
  {
    Next(from, s, t, x, Insert(t, id, now));
  }

  lemma {:induction false} CommitIsDebit(db: Db, req: Request, y: Txn)
    requires Opened(db, req).pc.Reading? && y.req == req && req.direction == DEBIT && y.lot.None?
    requires req.Value() <= Balance(db.lots, req.User()) && Spent(y.pieces) == req.Value()
    requires y.pieces == Pieces(Available(db.lots, req.User()), req.Value())
    requires y.entries == DebitEntries(req, y.pieces, Balance(db.lots, req.User()))
    ensures (CommitDb(db, y), Done(ReplyOf(y))) == Debit(db, req, Balance(db.lots, req.User()))
    ensures req.Keyed() ==> req.KeyId() !in db.keys
  {
  }

  // What a call that ran to its end on its own has done to everything but its own row of
  // the machine.
  ghost predicate EndsAs(s: State, t: nat, req: Request, after: State, db: Db, out: Outcome) {
    && after.db == db && after.txns.Keys == s.txns.Keys + {t} && after.txns[t].pc == Ended(out)
    && s.log <= after.log && |after.log| == |s.log| + (if out.Done? then 1 else 0)
    && (out.Done? ==> after.log[|s.log|].txn == t && after.log[|s.log|].req == req)
  }

  lemma {:induction false} SoloFunded(from: State, s: State, t: nat, req: Request) returns (after: State)
    requires Quiet(s) && Reconciled(s.db) && t !in s.txns && req.direction == DEBIT
    requires Opened(s.db, req).pc.Reading? && req.Value() <= Balance(s.db.lots, req.User())
    requires Leads(from, With(s, t, Start(req)))
    ensures Leads(from, after)
    ensures var (db, out) := Debit(s.db, req, Balance(s.db.lots, req.User()));
      EndsAs(s, t, req, after, db, out)
  {
    hide Leads, Quiet, Reconciled;
    var x := ReadsBalance(from, s, t, req);
    var y := SoloLoop(from, s, t, x);
    LeavesLoop(from, s, t, y);
    var z := y.(pc := Saving);
    CommitIsDebit(s.db, req, z);
    after := Commits(from, s, t, z);
  }

  lemma {:induction false} DebitEnds(from: State, s: State, t: nat, req: Request) returns (after: State)
    requires Quiet(s) && Reconciled(s.db) && t !in s.txns && req.direction == DEBIT
    requires Leads(from, With(s, t, Start(req)))
    ensures Leads(from, after)
    ensures var (db, out) := Debit(s.db, req, Balance(s.db.lots, req.User()));
      EndsAs(s, t, req, after, db, out)
  {
    hide Leads, Quiet, Reconciled;
    if !Opened(s.db, req).pc.Reading? {
      Opens(from, s, t, req);
      after := With(s, t, Opened(s.db, req));
    } else if Balance(s.db.lots, req.User()) < req.Value() {
      var x := ReadsBalance(from, s, t, req);
      after := With(s, t, x);
    } else {
      after := SoloFunded(from, s, t, req);
    }
  }

  // An undisturbed debit ends where the method ends, with the method's outcome.
  lemma {:induction false} SoloDebit(s: State, t: nat, req: Request) returns (after: State)
    requires Reachable(s) && (forall u :: u in s.txns ==> s.txns[u].pc.Ended?)
    requires t !in s.txns && req.direction == DEBIT
    ensures Leads(s, after)
    ensures var (db, out) := Debit(s.db, req, Balance(s.db.lots, req.User()));
      EndsAs(s, t, req, after, db, out)
  {
    hide Leads, Quiet, Reconciled, Inv, Reachable;
    ReachableOk(s);
    AllEndedIsQuiet(s);
    Starts(s, t, req);
    after := DebitEnds(s, s, t, req);
  }

  lemma {:induction false} CommitIsCredit(db: Db, req: Request, id: nat, now: int)
    requires Opened(db, req).pc.Reading? && req.direction == CREDIT
    ensures var z := Advance(db, Advance(db, Opened(db, req), ReadBalance(0)), Insert(0, id, now));
      (CommitDb(db, z), Done(ReplyOf(z))) == Credit(db, req, Balance(db.lots, req.User()), id, now)
    ensures req.Keyed() ==> req.KeyId() !in db.keys
  {
  }

  lemma {:induction false} SoloAllowed(from: State, s: State, t: nat, req: Request, id: nat, now: int)
    returns (after: State)
    requires Quiet(s) && t !in s.txns && req.direction == CREDIT && Lookup(s.db.lots, id).None?
    requires Opened(s.db, req).pc.Reading? && Leads(from, With(s, t, Start(req)))
    ensures Leads(from, after)
    ensures var (db, out) := Credit(s.db, req, Balance(s.db.lots, req.User()), id, now);
      EndsAs(s, t, req, after, db, out)
  {
    hide Leads, Quiet;
    var x := ReadsBalance(from, s, t, req);
    InsertsLot(from, s, t, x, id, now);
    CommitIsCredit(s.db, req, id, now);
    after := Commits(from, s, t, Advance(s.db, x, Insert(t, id, now)));
  }

  lemma {:induction false} CreditEnds(from: State, s: State, t: nat, req: Request, id: nat, now: int)
    returns (after: State)
    requires Quiet(s) && t !in s.txns && req.direction == CREDIT && Lookup(s.db.lots, id).None?
    requires Leads(from, With(s, t, Start(req)))
    ensures Leads(from, after)
    ensures var (db, out) := Credit(s.db, req, Balance(s.db.lots, req.User()), id, now);
      EndsAs(s, t, req, after, db, out)
  {
    hide Leads, Quiet;
    if Opened(s.db, req).pc.Reading? {
      after := SoloAllowed(from, s, t, req, id, now);
    } else {
      Opens(from, s, t, req);
      after := With(s, t, Opened(s.db, req));
    }
  }

  // Likewise an undisturbed credit.
  lemma {:induction false} SoloCredit(s: State, t: nat, req: Request, id: nat, now: int) returns (after: State)
    requires Reachable(s) && (forall u :: u in s.txns ==> s.txns[u].pc.Ended?)
    requires t !in s.txns && req.direction == CREDIT && Lookup(s.db.lots, id).None?
    ensures Leads(s, after)
    ensures var (db, out) := Credit(s.db, req, Balance(s.db.lots, req.User()), id, now);
      EndsAs(s, t, req, after, db, out)
  {
    hide Leads, Quiet, Inv, Reachable;
    ReachableOk(s);
    AllEndedIsQuiet(s);
    Starts(s, t, req);
    after := CreditEnds(s, s, t, req, id, now);
  }
}
