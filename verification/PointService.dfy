// creditWallet and debitWallet, as methods on the tables and as functions of them, and what
// a client who is served one call at a time can rely on.

module Points {
  import opened Prelude
  import opened JsValues
  import opened WalletTables
  import opened Fifo

  // Fault is any error of the database; Unheard is one too, of a commit that went through
  // all the same. A caller cannot tell the two apart.
  datatype Failure = NotPositive | KeyReused | Insufficient | Shortfall | Fault | Unheard

  // Done and Replay both hand the caller a response; a Replay comes from the key table.
  datatype Outcome = Done(response: Response) | Replay(response: Response) | Error(failure: Failure)

  // checkIdempotency: None lets the call go on.
  function CheckKey(keys: map<KeyId, KeyRow>, req: Request): Option<Outcome> {
    if !req.Keyed() || req.KeyId() !in keys then None
    else if keys[req.KeyId()].hash != req.fields then Some(Error(KeyReused))
    else Some(Replay(keys[req.KeyId()].response))
  }

  // saveIdempotency
  function SaveKey(keys: map<KeyId, KeyRow>, req: Request, response: Response): map<KeyId, KeyRow> {
    if req.Keyed() then keys[req.KeyId() := KeyRow(req.fields, response)] else keys
  }

  function CreditLot(req: Request, id: nat, now: int): Lot {
    Lot(id, req.appId, req.User(), req.Value(), req.Value(), now)
  }

  function CreditEntry(req: Request, id: nat, snapshot: int): Entry {
    Entry(req.appId, req.User(), id, CREDIT, req.Value(),
          req.fields.reason, req.fields.refType, req.fields.refId, snapshot)
  }

  // `balance` is what the read outside the transaction returned; it may be out of date.
  function Credit(db: Db, req: Request, balance: int, id: nat, now: int): (Db, Outcome) {
    if req.Value() <= 0 then (db, Error(NotPositive))
    else
      var hit := CheckKey(db.keys, req);
      if hit.Some? then (db, hit.value)
      else
        var entry := CreditEntry(req, id, balance + req.Value());
        (Db(InsertLot(db.lots, CreditLot(req, id, now)), db.ledger + [entry],
            SaveKey(db.keys, req, Single(entry))),
         Done(Single(entry)))
  }

  function Debit(db: Db, req: Request, balance: int): (Db, Outcome) {
    if req.Value() <= 0 then (db, Error(NotPositive))
    else
      var hit := CheckKey(db.keys, req);
      if hit.Some? then (db, hit.value)
      else if balance < req.Value() then (db, Error(Insufficient))
      else
        var pieces := Pieces(Available(db.lots, req.User()), req.Value());
        if Spent(pieces) < req.Value() then (db, Error(Shortfall))
        else
          var entries := DebitEntries(req, pieces, balance);
          (Db(ApplyPieces(db.lots, pieces), db.ledger + entries, SaveKey(db.keys, req, Many(entries))),
           Done(Many(entries)))
  }

  // Everything the debit loop's variables say between turns, its own writes included.
  ghost predicate Underway(lots: seq<Lot>, ledger: seq<Entry>, req: Request, rows: seq<Lot>, balance: int,
                           ps: seq<Piece>, left: int, running: int, entries: seq<Entry>,
                           txLots: seq<Lot>, txLedger: seq<Entry>) {
    && Midway(req, rows, ps, left, balance, entries)
    && running == balance - Spent(ps)
    && txLots == ApplyPieces(lots, ps) && txLedger == ledger + entries
  }

  lemma {:induction false} SetsOut(lots: seq<Lot>, ledger: seq<Entry>, req: Request, rows: seq<Lot>, balance: int)
    ensures Underway(lots, ledger, req, rows, balance, [], req.Value(), balance, [], lots, ledger)
  {
    LoopStarts(req, rows, balance);
    assert ledger + [] == ledger;
  }

  lemma {:induction false} GoesOn(lots: seq<Lot>, ledger: seq<Entry>, req: Request, rows: seq<Lot>, balance: int,
                           ps: seq<Piece>, left: int, running: int, entries: seq<Entry>,
                           txLots: seq<Lot>, txLedger: seq<Entry>)
    requires Underway(lots, ledger, req, rows, balance, ps, left, running, entries, txLots, txLedger)
    requires left != 0 && |ps| < |rows|
    ensures var row := rows[|ps|];
      var d := if left < row.remaining then left else row.remaining;
      var p := Piece(row.id, d, row.remaining - d);
      var e := DebitEntry(req, p, running - d);
      Underway(lots, ledger, req, rows, balance, ps + [p], left - d, running - d, entries + [e],
               SetRemaining(txLots, row.id, row.remaining - d), txLedger + [e])
  {
    hide Midway, Spent, ApplyPieces, SetRemaining;
    var row := rows[|ps|];
    var d := if left < row.remaining then left else row.remaining;
    var p := Piece(row.id, d, row.remaining - d);
    LoopTurns(req, rows, ps, left, balance, entries);
    ApplyPush(lots, ps, p);
    var e := DebitEntry(req, p, running - d);
    assert ledger + entries + [e] == ledger + (entries + [e]);
  }

  lemma {:induction false} Arrives(lots: seq<Lot>, ledger: seq<Entry>, req: Request, rows: seq<Lot>, balance: int,
                           ps: seq<Piece>, left: int, running: int, entries: seq<Entry>,
                           txLots: seq<Lot>, txLedger: seq<Entry>)
    requires Underway(lots, ledger, req, rows, balance, ps, left, running, entries, txLots, txLedger)
    requires left == 0 || |ps| == |rows|
    ensures var all := Pieces(rows, req.Value());
      && left == req.Value() - Spent(all) && entries == DebitEntries(req, all, balance)
      && txLots == ApplyPieces(lots, all) && txLedger == ledger + entries
  {
    LoopEnds(req, rows, ps, left, balance, entries);
  }

  // The debit's transaction up to its key: take from the oldest rows first, updating each
  // row and appending one ledger entry a row, until the amount or the rows run out.
  method ConsumeLots(lots: seq<Lot>, ledger: seq<Entry>, req: Request, currentBalance: int)
    returns (txLots: seq<Lot>, txLedger: seq<Entry>, entries: seq<Entry>, remaining: int)
    ensures var all := Pieces(Available(lots, req.User()), req.Value());
      && remaining == req.Value() - Spent(all) && entries == DebitEntries(req, all, currentBalance)
      && txLots == ApplyPieces(lots, all) && txLedger == ledger + entries
  {
    hide Pieces, Spent, DebitEntries, ApplyPieces, SetRemaining, Available, Underway;
    txLots, txLedger, entries := lots, ledger, [];
    var rows := Available(txLots, req.User());
    remaining := req.Value();
    var runningBalance := currentBalance;
    ghost var pieces: seq<Piece> := [];
    var i := 0;
    SetsOut(lots, ledger, req, rows, currentBalance);
    while i < |rows| && remaining != 0
      invariant 0 <= i == |pieces| <= |rows|
      invariant Underway(lots, ledger, req, rows, currentBalance, pieces, remaining, runningBalance, entries,
                         txLots, txLedger)
    {
      var lotRemaining := rows[i].remaining;
      var debitFromThisLot := if remaining < lotRemaining then remaining else lotRemaining;
      var newLotRemaining := lotRemaining - debitFromThisLot;
      ghost var piece := Piece(rows[i].id, debitFromThisLot, newLotRemaining);
      GoesOn(lots, ledger, req, rows, currentBalance, pieces, remaining, runningBalance, entries, txLots, txLedger);
      txLots := SetRemaining(txLots, rows[i].id, newLotRemaining);
      runningBalance := runningBalance - debitFromThisLot;
      var entry := Entry(req.appId, req.User(), rows[i].id, DEBIT, debitFromThisLot,
                         req.fields.reason, req.fields.refType, req.fields.refId, runningBalance);
      txLedger := txLedger + [entry];
      entries := entries + [entry];
      pieces := pieces + [piece];
      remaining := remaining - debitFromThisLot;
      i := i + 1;
    }
    Arrives(lots, ledger, req, rows, currentBalance, pieces, remaining, runningBalance, entries, txLots, txLedger);
  }

  // The service over its three tables. A transaction works on copies; commit stores them,
  // rollback drops them.
  class PointService {
    var lots: seq<Lot>
    var ledger: seq<Entry>
    var keys: map<KeyId, KeyRow>

    ghost function State(): Db
      reads this
    {
      Db(lots, ledger, keys)
    }

    constructor ()
      ensures State() == EMPTY
    {
      lots, ledger, keys := [], [], map[];
    }

    // `id` and `now` are the row id and creation time the database generates.
    method CreditWallet(req: Request, unlockedBalance: int, id: nat, now: int) returns (r: Outcome)
      modifies this
      ensures (State(), r) == Credit(old(State()), req, unlockedBalance, id, now)
    {
      if req.Value() <= 0 {
        return Error(NotPositive);
      }
      var hit := CheckKey(keys, req);
      if hit.Some? {
        return hit.value;
      }
      var txLots, txLedger, txKeys := lots, ledger, keys;
      var currentBalance := unlockedBalance;
      txLots := InsertLot(txLots, CreditLot(req, id, now));
      var newBalance := currentBalance + req.Value();
      var entry := CreditEntry(req, id, newBalance);
      txLedger := txLedger + [entry];
      txKeys := SaveKey(txKeys, req, Single(entry));
      lots, ledger, keys := txLots, txLedger, txKeys;
      return Done(Single(entry));
    }

    method DebitWallet(req: Request, unlockedBalance: int) returns (r: Outcome)
      modifies this
      ensures (State(), r) == Debit(old(State()), req, unlockedBalance)
    {
      if req.Value() <= 0 {
        return Error(NotPositive);
      }
      var hit := CheckKey(keys, req);
      if hit.Some? {
        return hit.value;
      }
      var currentBalance := unlockedBalance;
      if currentBalance < req.Value() {
        return Error(Insufficient);
      }
      var txLots, txLedger, entries, remaining := ConsumeLots(lots, ledger, req, currentBalance);
      if remaining > 0 {
        return Error(Shortfall);
      }
      lots, ledger, keys := txLots, txLedger, SaveKey(keys, req, Many(entries));
      return Done(Many(entries));
    }
  }

  // --- what every call keeps ------------------------------------------------------------

  lemma {:induction false} FirstEntry(ledger: seq<Entry>, req: Request, ps: seq<Piece>, balance: int)
    requires ps != []
    ensures ledger + DebitEntries(req, ps, balance)
         == (ledger + [DebitEntry(req, ps[0], balance - ps[0].amount)])
            + DebitEntries(req, ps[1..], balance - ps[0].amount)
  {
  }

  // Rows as read from the table, still as they are there.
  ghost predicate Current(lots: seq<Lot>, rows: seq<Lot>, user: string) {
    && DistinctIds(rows)
    && forall r :: r in rows ==> Lookup(lots, r.id) == Some(r) && IsAvailable(r, user)
  }

  lemma {:induction false} OneTurn(db: Db, req: Request, rows: seq<Lot>, p: Piece, e: Entry)
    requires Reconciled(db) && Current(db.lots, rows, req.User()) && rows != []
    requires p.lotId == rows[0].id && 0 <= p.left == rows[0].remaining - p.amount && p.amount > 0
    requires e.direction == DEBIT && e.lotId == p.lotId && e.amount == p.amount && e.userId == req.User()
    ensures Reconciled(db.(lots := SetRemaining(db.lots, p.lotId, p.left), ledger := db.ledger + [e]))
    ensures Current(SetRemaining(db.lots, p.lotId, p.left), rows[1..], req.User())
  {
    assert rows[0] in rows;
    DebitReconciles(db, p.lotId, p.left, e);
    SetFacts(db.lots, p.lotId, p.left);
    forall r | r in rows[1..] ensures r.id != rows[0].id {
      var i :| 0 <= i < |rows[1..]| && rows[1..][i] == r;
      assert rows[0].id != rows[i + 1].id;
    }
  }

  // Cutting pieces from rows that are in the table keeps lots and ledger in agreement.
  lemma {:induction false} PiecesReconcile(db: Db, req: Request, rows: seq<Lot>, amount: int, balance: int)
    requires Reconciled(db) && amount >= 0 && Current(db.lots, rows, req.User())
    ensures var ps := Pieces(rows, amount);
      Reconciled(db.(lots := ApplyPieces(db.lots, ps), ledger := db.ledger + DebitEntries(req, ps, balance)))
    decreases |rows|
  {
    hide Reconciled, DistinctIds, Lookup, SetRemaining;
    var ps := Pieces(rows, amount);
    if ps == [] {
      assert db.ledger + DebitEntries(req, ps, balance) == db.ledger;
    } else {
      var p, e := ps[0], DebitEntry(req, ps[0], balance - ps[0].amount);
      assert rows[0] in rows;
      hide Current;
      OneTurn(db, req, rows, p, e);
      FirstEntry(db.ledger, req, ps, balance);
      var db1 := db.(lots := SetRemaining(db.lots, p.lotId, p.left), ledger := db.ledger + [e]);
      PiecesReconcile(db1, req, rows[1..], amount - p.amount, balance - p.amount);
      assert ps[1..] == Pieces(rows[1..], amount - p.amount);
    }
  }

  lemma {:induction false} AvailableInTable(db: Db, user: string)
    requires Reconciled(db)
    ensures Current(db.lots, Available(db.lots, user), user)
  {
    AvailableFacts(db.lots, user);
    AvailableKeepsOrder(db.lots, user);
    forall r | r in Available(db.lots, user) ensures Lookup(db.lots, r.id) == Some(r) {
      LookupMember(db.lots, r);
    }
  }

  // Whatever the unlocked read returned, a debit leaves lots and ledger in agreement.
  lemma {:induction false} DebitKeepsAgreement(db: Db, req: Request, balance: int)
    requires Reconciled(db)
    ensures Reconciled(Debit(db, req, balance).0)
  {
    AvailableInTable(db, req.User());
    if req.Value() > 0 {
      PiecesReconcile(db, req, Available(db.lots, req.User()), req.Value(), balance);
    }
    var (db1, out) := Debit(db, req, balance);
    assert db1 == db || db1.(keys := db.keys) == db.(lots := db1.lots, ledger := db1.ledger);
  }

  lemma {:induction false} CreditKeepsAgreement(db: Db, req: Request, balance: int, id: nat, now: int)
    requires Reconciled(db) && Lookup(db.lots, id).None?
    ensures Reconciled(Credit(db, req, balance, id, now).0)
  {
    if req.Value() > 0 {
      CreditReconciles(db, CreditLot(req, id, now), CreditEntry(req, id, balance + req.Value()));
    }
  }

  lemma {:induction false} WhatIsCut(db: Db, user: string, amount: int)
    requires Reconciled(db) && amount >= 0
    ensures var ps := Pieces(Available(db.lots, user), amount);
      && Spent(ps) == Min(amount, Balance(db.lots, user))
      && ApplyPieces(db.lots, ps) == DebitLots(db.lots, user, amount)
  {
    var rows := Available(db.lots, user);
    AvailableInTable(db, user);
    AvailableFacts(db.lots, user);
    PiecesFacts(rows, amount);
    LoopIsDebit(db.lots, user, amount);
  }

  // What a key does to a call, told by the columns: a non-empty key that its app has used
  // answers the call from the key table, and no other key plays a part.
  lemma {:induction false} KeyAnswers(db: Db, req: Request)
    ensures var used := req.key.Val? && req.key.value != "" && Key(req.appId, req.key.value) in db.keys;
      CheckKey(db.keys, req) ==
        if !used then None
        else if db.keys[Key(req.appId, req.key.value)].hash == req.fields
          then Some(Replay(db.keys[Key(req.appId, req.key.value)].response))
        else Some(Error(KeyReused))
    ensures forall response ::
      SaveKey(db.keys, req, response)
      == (if req.key.Val? && req.key.value != ""
          then db.keys[Key(req.appId, req.key.value) := KeyRow(req.fields, response)] else db.keys)
  {
  }

  // Every outcome of a debit has its exact condition, and only a done one changes a table:
  // the user's queue of points loses its first a points and nobody else's changes; the ledger
  // gains one entry a lot touched, with the request's fields, amounts that add up to a and the
  // balance read less what was taken so far; a non-empty key is recorded with them.
  lemma {:induction false} DebitMeaning(db: Db, req: Request, balance: int)
    requires Reconciled(db)
    ensures var (db1, out) := Debit(db, req, balance);
      var a, user, funds := req.fields.amount.value, req.fields.userId, Balance(db.lots, req.fields.userId);
      var keyed := req.key.Val? && req.key.value != "";
      var used := keyed && Key(req.appId, req.key.value) in db.keys;
      && (out == Error(NotPositive) <==> a <= 0)
      && (out.Replay? <==> a > 0 && used && db.keys[Key(req.appId, req.key.value)].hash == req.fields)
      && (out.Replay? ==> out.response == db.keys[Key(req.appId, req.key.value)].response)
      && (out == Error(KeyReused) <==> a > 0 && used && db.keys[Key(req.appId, req.key.value)].hash != req.fields)
      && (out == Error(Insufficient) <==> a > 0 && !used && balance < a)
      && (out == Error(Shortfall) <==> a > 0 && !used && funds < a <= balance)
      && (out.Done? <==> a > 0 && !used && a <= balance && a <= funds)
      && (!out.Done? ==> db1 == db)
      && (out.Done? ==>
            && db1.lots == DebitLots(db.lots, user, a)
            && UnitQueue(db1.lots, user) == UnitQueue(db.lots, user)[a..]
            && (forall other :: other != user ==> UnitQueue(db1.lots, other) == UnitQueue(db.lots, other))
            && out.response.Many? && db1.ledger == db.ledger + out.response.entries
            && EntrySum(out.response.entries) == a
            && (forall i :: 0 <= i < |out.response.entries| ==>
                  DebitRow(req, balance, out.response.entries, i))
            && db1.keys == (if keyed then db.keys[Key(req.appId, req.key.value) := KeyRow(req.fields, out.response)]
                            else db.keys))
  {
    hide Reconciled, Pieces, Spent, ApplyPieces, DebitLots, UnitQueue, DebitEntries, Balance, Available;
    hide CheckKey, SaveKey, EntrySum;
    var a, user := req.fields.amount.value, req.fields.userId;
    KeyAnswers(db, req);
    if a > 0 {
      WhatIsCut(db, user, a);
      if a <= Balance(db.lots, user) {
        DebitDropsUnits(db.lots, user, a);
        forall other | other != user { DebitSparesOthers(db.lots, user, a, other); }
        CutRows(db, req, balance);
      }
    }
  }

  // Entry i of a debit, column by column.
  ghost predicate DebitRow(req: Request, balance: int, es: seq<Entry>, i: int)
    requires 0 <= i < |es|
  {
    && es[i].appId == req.appId && es[i].userId == req.fields.userId
    && es[i].direction == DEBIT && es[i].amount > 0
    && es[i].reason == req.fields.reason && es[i].refType == req.fields.refType && es[i].refId == req.fields.refId
    && es[i].snapshot == balance - EntrySum(es[..i + 1])
  }

  lemma {:induction false} CutRows(db: Db, req: Request, balance: int)
    requires Reconciled(db) && 0 < req.fields.amount.value <= Balance(db.lots, req.fields.userId)
    ensures var es := DebitEntries(req, Pieces(Available(db.lots, req.User()), req.Value()), balance);
      && EntrySum(es) == req.fields.amount.value
      && forall i :: 0 <= i < |es| ==> DebitRow(req, balance, es, i)
  {
    hide Reconciled, Pieces, Spent, Available, Balance, DebitEntries, EntrySum;
    var rows := Available(db.lots, req.User());
    var ps := Pieces(rows, req.Value());
    WhatIsCut(db, req.User(), req.Value());
    AvailableInTable(db, req.User());
    PiecesFacts(rows, req.Value());
    EntriesCarry(req, ps, balance);
    forall i | 0 <= i < |ps| ensures DebitRow(req, balance, DebitEntries(req, ps, balance), i) {
      EntryAt(req, ps, balance, i);
      assert DebitEntries(req, ps, balance)[i] in DebitEntries(req, ps, balance);
    }
  }

  // The same for a credit: it is done exactly when the amount is positive and the key unused;
  // then one new lot, full and made now, one CREDIT entry on it with the request's fields and
  // the balance read plus the amount, and a row for a non-empty key are all that is new.
  lemma {:induction false} CreditMeaning(db: Db, req: Request, balance: int, id: nat, now: int)
    requires Lookup(db.lots, id).None?
    ensures var (db1, out) := Credit(db, req, balance, id, now);
      var a, user := req.fields.amount.value, req.fields.userId;
      var keyed := req.key.Val? && req.key.value != "";
      var used := keyed && Key(req.appId, req.key.value) in db.keys;
      && (out == Error(NotPositive) <==> a <= 0)
      && (out.Replay? <==> a > 0 && used && db.keys[Key(req.appId, req.key.value)].hash == req.fields)
      && (out.Replay? ==> out.response == db.keys[Key(req.appId, req.key.value)].response)
      && (out == Error(KeyReused) <==> a > 0 && used && db.keys[Key(req.appId, req.key.value)].hash != req.fields)
      && (out.Done? <==> a > 0 && !used)
      && (!out.Done? ==> db1 == db)
      && (out.Done? ==>
            var e := Entry(req.appId, user, id, CREDIT, a, req.fields.reason, req.fields.refType, req.fields.refId,
                           balance + a);
            && out.response == Single(e) && db1.ledger == db.ledger + [e]
            && (forall k :: Lookup(db1.lots, k)
                            == if k == id then Some(Lot(id, req.appId, user, a, a, now)) else Lookup(db.lots, k))
            && db1.keys == (if keyed then db.keys[Key(req.appId, req.key.value) := KeyRow(req.fields, Single(e))]
                            else db.keys)
            && (forall u :: Balance(db1.lots, u) == Balance(db.lots, u) + (if u == user then a else 0))
            && ((forall l :: l in db.lots ==> l.createdAt <= now) ==>
                  UnitQueue(db1.lots, user) == UnitQueue(db.lots, user) + Repeat(id, a)))
  {
    hide Balance, UnitQueue, InsertLot, Lookup, Repeat, CheckKey, SaveKey;
    KeyAnswers(db, req);
    if req.Value() > 0 {
      var lot := CreditLot(req, id, now);
      InsertFacts(db.lots, lot);
      if forall l :: l in db.lots ==> l.createdAt <= now { CreditQueuesLast(db.lots, lot); }
    }
  }

  // --- serving calls one after another --------------------------------------------------

  datatype Call = Call(req: Request, now: int)

  // A row id no lot has.
  function NextId(lots: seq<Lot>): (id: nat)
    ensures forall l :: l in lots ==> l.id < id
  {
    if lots == [] then 0
    else
      var r := NextId(lots[1..]);
      assert forall l :: l in lots ==> l == lots[0] || l in lots[1..];
      if lots[0].id < r then r else lots[0].id + 1
  }

  // With nobody else around, the balance read is up to date.
  function Serve(db: Db, c: Call): (Db, Outcome) {
    var balance := Balance(db.lots, c.req.User());
    match c.req.direction
    case CREDIT => Credit(db, c.req, balance, NextId(db.lots), c.now)
    case DEBIT => Debit(db, c.req, balance)
  }

  function Serial(db: Db, calls: seq<Call>): Db
    decreases |calls|
  {
    if calls == [] then db else Serial(Serve(db, calls[0]).0, calls[1..])
  }

  // Follows a user's snapshots through the ledger: each must be the previous one plus or
  // minus its entry's amount. None when the chain breaks, else where it ends.
  function Chain(ledger: seq<Entry>, user: string): Option<int> {
    if ledger == [] then Some(0)
    else
      var e, before := ledger[|ledger| - 1], Chain(ledger[..|ledger| - 1], user);
      if before.None? || e.userId != user then before
      else if e.snapshot == before.value + (if e.direction == CREDIT then e.amount else -e.amount)
      then Some(e.snapshot) else None
  }

  lemma {:induction false} ChainPush(ledger: seq<Entry>, e: Entry, user: string)
    requires Chain(ledger, user).Some?
    ensures Chain(ledger + [e], user) ==
      if e.userId != user then Chain(ledger, user)
      else if e.snapshot == Chain(ledger, user).value + (if e.direction == CREDIT then e.amount else -e.amount)
      then Some(e.snapshot) else None
  {
    assert (ledger + [e])[..|ledger|] == ledger;
  }

  lemma {:induction false} ChainThroughDebit(ledger: seq<Entry>, req: Request, ps: seq<Piece>, balance: int,
          user: string)
    requires Chain(ledger, user).Some?
    requires user == req.User() ==> Chain(ledger, user) == Some(balance)
    ensures Chain(ledger + DebitEntries(req, ps, balance), user)
         == if user == req.User() then Some(balance - Spent(ps)) else Chain(ledger, user)
    decreases |ps|
  {
    hide Chain;
    if ps == [] {
      assert ledger + DebitEntries(req, ps, balance) == ledger;
    } else {
      var e := DebitEntry(req, ps[0], balance - ps[0].amount);
      ChainPush(ledger, e, user);
      FirstEntry(ledger, req, ps, balance);
      ChainThroughDebit(ledger + [e], req, ps[1..], balance - ps[0].amount, user);
    }
  }

  ghost predicate InStep(db: Db) {
    && Reconciled(db)
    && forall u :: Chain(db.ledger, u) == Some(Balance(db.lots, u))
  }

  lemma {:induction false} CreditInStep(db: Db, c: Call)
    requires InStep(db) && c.req.direction == CREDIT
    ensures InStep(Serve(db, c).0)
  {
    hide Reconciled, Chain, Balance, InsertLot, Lookup;
    var req, id := c.req, NextId(db.lots);
    var balance := Balance(db.lots, req.User());
    var (db1, out) := Serve(db, c);
    CreditKeepsAgreement(db, req, balance, id, c.now);
    if out.Done? {
      InsertFacts(db.lots, CreditLot(req, id, c.now));
      forall u ensures Chain(db1.ledger, u) == Some(Balance(db1.lots, u)) {
        ChainPush(db.ledger, CreditEntry(req, id, balance + req.Value()), u);
      }
    }
  }

  lemma {:induction false} DebitBalances(db: Db, req: Request, u: string)
    requires Reconciled(db) && 0 < req.Value() <= Balance(db.lots, req.User())
    ensures var ps := Pieces(Available(db.lots, req.User()), req.Value());
      && Spent(ps) == req.Value()
      && Balance(ApplyPieces(db.lots, ps), u)
         == Balance(db.lots, u) - (if u == req.User() then req.Value() else 0)
  {
    var a, user := req.Value(), req.User();
    AvailableFacts(db.lots, user);
    PiecesFacts(Available(db.lots, user), a);
    LoopIsDebit(db.lots, user, a);
    DebitDropsUnits(db.lots, user, a);
    if u != user { DebitSparesOthers(db.lots, user, a, u); }
    var lots := DebitLots(db.lots, user, a);
    assert |UnitQueue(lots, u)| == Balance(lots, u) && |UnitQueue(db.lots, u)| == Balance(db.lots, u);
  }

  lemma {:induction false} DebitInStep(db: Db, c: Call)
    requires InStep(db) && c.req.direction == DEBIT
    ensures InStep(Serve(db, c).0)
  {
    var req := c.req;
    var balance := Balance(db.lots, req.User());
    var (db1, out) := Serve(db, c);
    DebitKeepsAgreement(db, req, balance);
    if out.Done? {
      var ps := Pieces(Available(db.lots, req.User()), req.Value());
      forall u ensures Chain(db1.ledger, u) == Some(Balance(db1.lots, u)) {
        DebitBalances(db, req, u);
        ChainThroughDebit(db.ledger, req, ps, balance, u);
      }
    }
  }

  // Over every serial run: lots and ledger agree, and each user's snapshots form a chain
  // from zero, through every entry of every multi-lot debit, to the user's balance.
  lemma {:induction false} SerialSnapshotsChain(db: Db, calls: seq<Call>)
    requires InStep(db)
    ensures InStep(Serial(db, calls))
    decreases |calls|
  {
    if calls != [] {
      if calls[0].req.direction == CREDIT { CreditInStep(db, calls[0]); } else { DebitInStep(db, calls[0]); }
      SerialSnapshotsChain(Serve(db, calls[0]).0, calls[1..]);
    }
  }

  lemma {:induction false} EmptyInStep()
    ensures InStep(EMPTY)
  {
    assert forall u :: Total(EMPTY.ledger, OfUser(u, CREDIT)) == 0;
  }

  // --- replays --------------------------------------------------------------------------

  lemma {:induction false} KeysAreKept(db: Db, calls: seq<Call>, k: KeyId)
    requires k in db.keys
    ensures k in Serial(db, calls).keys && Serial(db, calls).keys[k] == db.keys[k]
    decreases |calls|
  {
    if calls != [] {
      KeysAreKept(Serve(db, calls[0]).0, calls[1..], k);
    }
  }

  // Once a call with a non-empty key is done, any later call of its app with that key changes
  // nothing: with the same hashed fields it gets the recorded response, with others a
  // conflict. The direction is not hashed, so a debit can be answered with an earlier credit.
  lemma {:induction false} LaterCallsWithTheKey(db: Db, first: Call, between: seq<Call>, later: Call)
    requires first.req.key.Val? && first.req.key.value != "" && Serve(db, first).1.Done?
    requires later.req.appId == first.req.appId && later.req.key == first.req.key
    requires later.req.fields.amount.value > 0
    ensures var db2 := Serial(Serve(db, first).0, between);
      Serve(db2, later) == (db2, if later.req.fields == first.req.fields
                                 then Replay(Serve(db, first).1.response) else Error(KeyReused))
  {
    KeysAreKept(Serve(db, first).0, between, Key(first.req.appId, first.req.key.value));
  }

  // A call without a key, or with an empty one, is never answered from the key table.
  lemma {:induction false} KeylessCallsAlwaysRun(db: Db, c: Call)
    requires !c.req.key.Val? || c.req.key.value == ""
    ensures var (db1, out) := Serve(db, c);
      && db1.keys == db.keys && !out.Replay? && out != Error(KeyReused)
      && (c.req.direction == CREDIT && c.req.fields.amount.value > 0 ==> out.Done?)
  {
  }

  lemma {:induction false} EntriesAreDebits(req: Request, ps: seq<Piece>, balance: int)
    ensures forall e :: e in DebitEntries(req, ps, balance) ==> e.direction == DEBIT
    decreases |ps|
  {
    if ps != [] {
      EntriesAreDebits(req, ps[1..], balance - ps[0].amount);
      assert forall e :: e in DebitEntries(req, ps, balance) ==>
        e == DebitEntries(req, ps, balance)[0] || e in DebitEntries(req, ps[1..], balance - ps[0].amount);
    }
  }

  // What a debit answers with: a list of DEBIT entries.
  predicate OfDebit(r: Response) { r.Many? && forall e :: e in r.entries ==> e.direction == DEBIT }

  // A call whose non-empty key was recorded with its fields is answered with a debit's
  // response exactly when the call that recorded the key was a debit; its own direction plays
  // no part.
  lemma {:induction false} ReplayDirectionIff(db: Db, first: Call, between: seq<Call>, later: Call)
    requires first.req.key.Val? && first.req.key.value != "" && Serve(db, first).1.Done?
    requires later.req.appId == first.req.appId && later.req.key == first.req.key
    requires later.req.fields == first.req.fields
    ensures var db2 := Serial(Serve(db, first).0, between);
      var (db3, out) := Serve(db2, later);
      db3 == db2 && out.Replay? && (OfDebit(out.response) <==> first.req.direction == DEBIT)
  {
    LaterCallsWithTheKey(db, first, between, later);
    hide Serial, Pieces, Available, ApplyPieces, DebitEntries;
    if first.req.direction == DEBIT {
      var pieces := Pieces(Available(db.lots, first.req.User()), first.req.Value());
      EntriesAreDebits(first.req, pieces, Balance(db.lots, first.req.User()));
    }
  }

  // So a debit that is answered successfully may have debited nothing: whatever the tables,
  // one that repeats the key and fields of an earlier credit gets the credit's response.
  lemma {:induction false} DebitAnsweredByCredit(db: Db, first: Call, between: seq<Call>, now: int)
    requires first.req.direction == CREDIT && first.req.key.Val? && first.req.key.value != ""
    requires Key(first.req.appId, first.req.key.value) !in db.keys && first.req.fields.amount.value > 0
    ensures var db2 := Serial(Serve(db, first).0, between);
      var (db3, out) := Serve(db2, Call(first.req.(direction := DEBIT), now));
      Serve(db, first).1.Done? && db3 == db2 && out == Replay(Serve(db, first).1.response) && !OfDebit(out.response)
  {
    hide Serial;
    ReplayDirectionIff(db, first, between, Call(first.req.(direction := DEBIT), now));
    LaterCallsWithTheKey(db, first, between, Call(first.req.(direction := DEBIT), now));
  }
}
