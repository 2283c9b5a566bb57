// Many wallet calls at once. Each call is a transaction that moves in steps; the steps of
// different calls interleave freely, and any call can fail at any point.
//
// The database is taken to behave as PostgreSQL does at READ COMMITTED: a write is visible
// to others only from commit on; SELECT ... FOR UPDATE picks candidate rows from the
// committed table, then for each row waits until no other transaction holds it and looks at
// the committed row again; locks last until the transaction ends; an insert under a unique
// index waits for an uncommitted insert of the same key and fails on a committed one.

module WalletRuns {
  import opened Prelude
  import opened WalletTables
  import opened Fifo
  import opened Points

  datatype Pc =
    | Checking                      // about to look the key up
    | Reading                       // about to read the balance, outside the transaction
    | Inserting                     // credit: about to write lot and entry
    | Querying                      // debit: about to select the lots
    | Locking(todo: seq<nat>)       // debit: rows still to lock and read
    | Looping                       // debit: in the loop
    | Saving                        // about to insert the key
    | Committing
    | Ended(outcome: Outcome)

  datatype Txn = Txn(
    req: Request, pc: Pc,
    balance: int,                   // what the unlocked read returned
    locked: set<nat>,               // lot rows held
    seen: set<nat>,                 // lots that existed when the rows were selected
    rows: seq<Lot>,                 // lot rows as read under lock
    left: int,                      // still to debit
    pieces: seq<Piece>,             // uncommitted row updates
    lot: Option<Lot>,               // uncommitted lot insert
    entries: seq<Entry>,            // uncommitted ledger inserts
    holdsKey: bool)                 // uncommitted key insert

  // A committed wallet change: which call made it, and its ledger entries.
  datatype Effect = Effect(txn: nat, req: Request, entries: seq<Entry>)
  {
    function Reply(): Response {
      if req.direction == CREDIT && |entries| == 1 then Single(entries[0]) else Many(entries)
    }
  }

  datatype State = State(db: Db, txns: map<nat, Txn>, log: seq<Effect>)

  const INIT: State := State(EMPTY, map[], [])

  datatype Action =
    | Begin(t: nat, req: Request)
    | CheckKeyOf(t: nat)
    | ReadBalance(t: nat)
    | Insert(t: nat, id: nat, now: int)
    | Select(t: nat, ids: seq<nat>)
    | LockNext(t: nat)
    | Turn(t: nat)
    | EndLoop(t: nat)
    | InsertKey(t: nat)
    | Commit(t: nat, heard: bool)   // the caller may get an error although it went through
    | Fail(t: nat)

  // --- the steps ------------------------------------------------------------------------

  function Finish(x: Txn, out: Outcome): Txn {
    x.(pc := Ended(out), locked := {}, seen := {}, rows := [], left := 0, pieces := [], lot := None, entries := [],
       holdsKey := false)
  }

  function Start(req: Request): Txn {
    var x := Txn(req, Reading, 0, {}, {}, [], 0, [], None, [], false);
    if req.Value() <= 0 then Finish(x, Error(NotPositive))
    else if req.Keyed() then x.(pc := Checking)
    else x
  }

  function LotIds(lots: seq<Lot>): set<nat> { set l | l in lots :: l.id }

  // Rows a SELECT may return, and in an order the ORDER BY allows.
  ghost predicate Selects(lots: seq<Lot>, user: string, ids: seq<nat>) {
    && (forall i, j :: 0 <= i < j < |ids| ==> ids[i] != ids[j])
    && (forall id :: id in ids <==> Lookup(lots, id).Some? && IsAvailable(Lookup(lots, id).value, user))
    && (forall i, j :: 0 <= i < j < |ids| ==>
          Lookup(lots, ids[i]).value.createdAt <= Lookup(lots, ids[j]).value.createdAt)
  }

  predicate RowFree(s: State, id: nat, t: nat) {
    forall u :: u in s.txns && u != t ==> id !in s.txns[u].locked
  }

  predicate IdFree(s: State, id: nat) {
    Lookup(s.db.lots, id).None? && forall u :: u in s.txns && s.txns[u].lot.Some? ==> s.txns[u].lot.value.id != id
  }

  predicate KeyFree(s: State, k: KeyId, t: nat) {
    forall u :: u in s.txns && u != t && s.txns[u].holdsKey && s.txns[u].req.Keyed() ==> s.txns[u].req.KeyId() != k
  }

  ghost predicate Enabled(s: State, a: Action) {
    if a.Begin? then a.t !in s.txns
    else
      a.t in s.txns &&
      var x := s.txns[a.t];
      match a
      case Begin(_, _) => false
      case CheckKeyOf(_) => x.pc.Checking?
      case ReadBalance(_) => x.pc.Reading?
      case Insert(_, id, _) => x.pc.Inserting? && IdFree(s, id)
      case Select(_, ids) => x.pc.Querying? && Selects(s.db.lots, x.req.User(), ids)
      case LockNext(_) => x.pc.Locking? && (x.pc.todo != [] ==> RowFree(s, x.pc.todo[0], a.t))
      case Turn(_) => x.pc.Looping? && x.left != 0 && |x.pieces| < |x.rows|
      case EndLoop(_) => x.pc.Looping? && (x.left == 0 || |x.pieces| == |x.rows|)
      case InsertKey(_) => x.pc.Saving? && (x.req.Keyed() ==> KeyFree(s, x.req.KeyId(), a.t))
      case Commit(_, _) => x.pc.Committing?
      case Fail(_) => !x.pc.Ended?
  }

  // What a step other than Begin and Commit makes of its transaction; it sees the
  // committed tables and writes nothing there.
  function Advance(db: Db, x: Txn, a: Action): Txn {
    match a
    case Begin(_, _) => x
    case CheckKeyOf(_) =>
      var hit := CheckKey(db.keys, x.req);
      if hit.Some? then Finish(x, hit.value) else x.(pc := Reading)
    case ReadBalance(_) =>
      var balance := Balance(db.lots, x.req.User());
      if x.req.direction == CREDIT then x.(pc := Inserting, balance := balance)
      else if balance < x.req.Value() then Finish(x, Error(Insufficient))
      else x.(pc := Querying, balance := balance)
    case Insert(_, id, now) =>
      x.(pc := Saving, lot := Some(CreditLot(x.req, id, now)),
         entries := [CreditEntry(x.req, id, x.balance + x.req.Value())])
    case Select(_, ids) => x.(pc := Locking(ids), left := x.req.Value(), seen := LotIds(db.lots))
    case LockNext(_) =>
      if !x.pc.Locking? then x
      else if x.pc.todo == [] then x.(pc := Looping)
      else
        var id := x.pc.todo[0];
        var row := Lookup(db.lots, id);
        x.(pc := Locking(x.pc.todo[1..]), locked := x.locked + {id},
           rows := if row.Some? && IsAvailable(row.value, x.req.User()) then x.rows + [row.value] else x.rows)
    case Turn(_) =>
      if |x.pieces| >= |x.rows| then x
      else
        var row := x.rows[|x.pieces|];
        var d := if x.left < row.remaining then x.left else row.remaining;
        var piece := Piece(row.id, d, row.remaining - d);
        var running := x.balance - Spent(x.pieces) - d;
        x.(left := x.left - d, pieces := x.pieces + [piece],
           entries := x.entries + [DebitEntry(x.req, piece, running)])
    case EndLoop(_) =>
      if x.left > 0 then Finish(x, Error(Shortfall)) else x.(pc := Saving)
    case InsertKey(_) =>
      if !x.req.Keyed() then x.(pc := Committing)
      else if x.req.KeyId() in db.keys then Finish(x, Error(Fault))
      else x.(pc := Committing, holdsKey := true)
    case Commit(_, _) => x
    case Fail(_) => Finish(x, Error(Fault))
  }

  function ReplyOf(x: Txn): Response {
    if x.req.direction == CREDIT && |x.entries| == 1 then Single(x.entries[0]) else Many(x.entries)
  }

  function LotsAfter(lots: seq<Lot>, x: Txn): seq<Lot> {
    if x.lot.Some? then InsertLot(lots, x.lot.value) else ApplyPieces(lots, x.pieces)
  }

  function CommitDb(db: Db, x: Txn): Db {
    Db(LotsAfter(db.lots, x),
       db.ledger + x.entries,
       SaveKey(db.keys, x.req, ReplyOf(x)))
  }

  function Step(s: State, a: Action): State {
    if a.Begin? then s.(txns := s.txns[a.t := Start(a.req)])
    else if a.t !in s.txns then s
    else if a.Commit? then
      var x := s.txns[a.t];
      State(CommitDb(s.db, x), s.txns[a.t := Finish(x, if a.heard then Done(ReplyOf(x)) else Error(Unheard))],
            s.log + [Effect(a.t, x.req, x.entries)])
    else s.(txns := s.txns[a.t := Advance(s.db, s.txns[a.t], a)])
  }

  function Run(s: State, acts: seq<Action>): State
    decreases |acts|
  {
    if acts == [] then s else Run(Step(s, acts[0]), acts[1..])
  }

  ghost predicate Legal(s: State, acts: seq<Action>)
    decreases |acts|
  {
    acts == [] || (Enabled(s, acts[0]) && Legal(Step(s, acts[0]), acts[1..]))
  }

  // --- the invariant --------------------------------------------------------------------

  function Flatten(log: seq<Effect>): seq<Entry> {
    if log == [] then [] else Flatten(log[..|log| - 1]) + log[|log| - 1].entries
  }

  // Every entry carries the request's own fields, and together they move its amount.
  ghost predicate Carries(req: Request, es: seq<Entry>) {
    && EntrySum(es) == req.Value() > 0
    && (req.direction == CREDIT ==> |es| == 1)
    && forall e :: e in es ==>
         && e.appId == req.appId && e.userId == req.User() && e.direction == req.direction
         && e.reason == req.fields.reason && e.refType == req.fields.refType && e.refId == req.fields.refId
  }

  ghost predicate SameKey(a: Request, b: Request) {
    a.Keyed() && b.Keyed() && a.KeyId() == b.KeyId()
  }

  ghost predicate LogOk(db: Db, log: seq<Effect>) {
    && db.ledger == Flatten(log)
    && (forall i :: 0 <= i < |log| ==> Carries(log[i].req, log[i].entries))
    && (forall i :: 0 <= i < |log| && log[i].req.Keyed() ==>
          log[i].req.KeyId() in db.keys
          && db.keys[log[i].req.KeyId()] == KeyRow(log[i].req.fields, log[i].Reply()))
    && (forall k :: k in db.keys ==> exists i :: 0 <= i < |log| && log[i].req.Keyed() && log[i].req.KeyId() == k)
    && (forall i, j :: 0 <= i < j < |log| ==> !SameKey(log[i].req, log[j].req))
    && (forall i, j :: 0 <= i < j < |log| ==> log[i].txn != log[j].txn)
  }

  // What an ended call's outcome says about the log.
  ghost predicate OutcomeOk(log: seq<Effect>, t: nat, req: Request, out: Outcome) {
    match out
    case Done(r) => exists i :: 0 <= i < |log| && log[i].txn == t && log[i].req == req && log[i].Reply() == r
    case Replay(r) =>
      && (forall i :: 0 <= i < |log| ==> log[i].txn != t)
      && exists i :: 0 <= i < |log| && SameKey(log[i].req, req) && log[i].req.fields == req.fields
                     && log[i].Reply() == r
    case Error(f) =>
      if f == Unheard then exists i :: 0 <= i < |log| && log[i].txn == t && log[i].req == req
      else
        && (forall i :: 0 <= i < |log| ==> log[i].txn != t)
        && (f == KeyReused ==>
              exists i :: 0 <= i < |log| && SameKey(log[i].req, req) && log[i].req.fields != req.fields)
  }

  ghost predicate TodoOk(lots: seq<Lot>, x: Txn, todo: seq<nat>) {
    && x.pieces == [] && x.entries == []
    && (forall i, j :: 0 <= i < j < |todo| ==> todo[i] != todo[j])
    && (forall i :: 0 <= i < |todo| ==> Lookup(lots, todo[i]).Some?)
    && (forall i, r :: 0 <= i < |todo| && r in x.rows ==>
          r.id != todo[i] && r.createdAt <= Lookup(lots, todo[i]).value.createdAt)
    && (forall i, j :: 0 <= i < j < |todo| ==>
          Lookup(lots, todo[i]).value.createdAt <= Lookup(lots, todo[j]).value.createdAt)
  }

  // The rows a debit has read are held, in order of age, and still as they were read; its
  // updates so far are the first of the pieces a debit of the amount cuts from them.
  ghost predicate DebitOk(lots: seq<Lot>, x: Txn) {
    && Current(lots, x.rows, x.req.User()) && SortedByAge(x.rows)
    && (forall r :: r in x.rows ==> r.id in x.locked)
    && x.left >= 0
    && Midway(x.req, x.rows, x.pieces, x.left, x.balance, x.entries)
  }

  // No lot that was there at the query and that the user can spend from has been passed
  // over: it is among the rows held or still to lock. Younger and later lots may be missing.
  ghost predicate SeenOk(lots: seq<Lot>, user: string, seen: set<nat>, rows: seq<Lot>, todo: seq<nat>) {
    && (forall id :: id in seen ==> Lookup(lots, id).Some?)
    && (forall id :: id in seen && IsAvailable(Lookup(lots, id).value, user) ==> id in todo || id in LotIds(rows))
    && (forall id :: id in todo ==> id in seen)
    && (forall r :: r in rows ==> r.id in seen)
  }

  ghost predicate CreditOk(lots: seq<Lot>, x: Txn) {
    && x.lot.Some? && x.pieces == []
    && x.lot.value == CreditLot(x.req, x.lot.value.id, x.lot.value.createdAt)
    && Lookup(lots, x.lot.value.id).None?
    && x.entries == [CreditEntry(x.req, x.lot.value.id, x.balance + x.req.Value())]
  }

  ghost predicate WritesOk(lots: seq<Lot>, x: Txn) {
    if x.req.direction == CREDIT then CreditOk(lots, x)
    else
      && DebitOk(lots, x) && x.left == 0 && x.lot.None?
      && SeenOk(lots, x.req.User(), x.seen, x.rows, [])
  }

  ghost predicate Clean(x: Txn) {
    x.locked == {} && x.rows == [] && x.pieces == [] && x.entries == []
  }

  // Rows are only ever locked after they were seen, and rows are never deleted.
  ghost predicate LocksExist(lots: seq<Lot>, x: Txn) {
    forall id :: id in x.locked ==> Lookup(lots, id).Some?
  }

  ghost predicate TxnOk(db: Db, log: seq<Effect>, t: nat, x: Txn) {
    && (!x.pc.Ended? ==> x.req.Value() > 0 && forall i :: 0 <= i < |log| ==> log[i].txn != t)
    && (x.holdsKey ==> x.pc.Committing? && x.req.Keyed() && x.req.KeyId() !in db.keys)
    && (x.lot.Some? ==> Lookup(db.lots, x.lot.value.id).None? && (x.pc.Saving? || x.pc.Committing?))
    && LocksExist(db.lots, x)
    && (match x.pc
        case Checking => Clean(x)
        case Reading => Clean(x)
        case Inserting => Clean(x) && x.req.direction == CREDIT
        case Querying => Clean(x) && x.req.direction == DEBIT
        case Locking(todo) => x.req.direction == DEBIT && DebitOk(db.lots, x) && TodoOk(db.lots, x, todo)
                           && SeenOk(db.lots, x.req.User(), x.seen, x.rows, todo)
        case Looping => x.req.direction == DEBIT && DebitOk(db.lots, x)
                        && SeenOk(db.lots, x.req.User(), x.seen, x.rows, [])
        case Saving => WritesOk(db.lots, x)
        case Committing => WritesOk(db.lots, x) && (x.req.Keyed() ==> x.holdsKey)
        case Ended(out) => x.locked == {} && OutcomeOk(log, t, x.req, out))
  }

  ghost predicate Apart(x: Txn, y: Txn) {
    && x.locked !! y.locked
    && (x.lot.Some? && y.lot.Some? ==> x.lot.value.id != y.lot.value.id)
    && !(x.holdsKey && y.holdsKey && SameKey(x.req, y.req))
  }

  ghost predicate Inv(s: State) {
    && Reconciled(s.db)
    && LogOk(s.db, s.log)
    && (forall t :: t in s.txns ==> TxnOk(s.db, s.log, t, s.txns[t]))
    && (forall t, u :: t in s.txns && u in s.txns && t != u ==> Apart(s.txns[t], s.txns[u]))
    && (forall i :: 0 <= i < |s.log| ==> s.log[i].txn in s.txns && s.txns[s.log[i].txn].req == s.log[i].req)
  }

  // --- steps that commit nothing --------------------------------------------------------

  lemma {:induction false} StartOk(db: Db, log: seq<Effect>, t: nat, req: Request)
    requires forall i :: 0 <= i < |log| ==> log[i].txn != t
    ensures TxnOk(db, log, t, Start(req))
  {
  }

  lemma {:induction false} KeyHit(db: Db, log: seq<Effect>, t: nat, x: Txn)
    requires LogOk(db, log) && TxnOk(db, log, t, x) && !x.pc.Ended? && CheckKey(db.keys, x.req).Some?
    ensures OutcomeOk(log, t, x.req, CheckKey(db.keys, x.req).value)
  {
    var k := x.req.KeyId();
    var i :| 0 <= i < |log| && log[i].req.Keyed() && log[i].req.KeyId() == k;
    assert SameKey(log[i].req, x.req);
    assert db.keys[k] == KeyRow(log[i].req.fields, log[i].Reply());
  }

  lemma {:induction false} LotIdsFound(lots: seq<Lot>)
    ensures forall id :: id in LotIds(lots) <==> Lookup(lots, id).Some?
  {
    forall id ensures id in LotIds(lots) <==> Lookup(lots, id).Some? {
      if Lookup(lots, id).Some? {
        assert Lookup(lots, id).value in lots;
      }
    }
  }

  lemma {:induction false} SelectSees(lots: seq<Lot>, user: string, ids: seq<nat>)
    requires Selects(lots, user, ids)
    ensures SeenOk(lots, user, LotIds(lots), [], ids)
  {
    LotIdsFound(lots);
  }

  // Locking a row takes it from those to come to those held, unless it is used up by now.
  lemma {:induction false} LockSees(lots: seq<Lot>, user: string, seen: set<nat>, rows: seq<Lot>, todo: seq<nat>)
    requires SeenOk(lots, user, seen, rows, todo) && todo != []
    ensures var row := Lookup(lots, todo[0]).value;
      SeenOk(lots, user, seen, if IsAvailable(row, user) then rows + [row] else rows, todo[1..])
  {
    assert todo[0] in todo && todo == [todo[0]] + todo[1..];
    var row := Lookup(lots, todo[0]).value;
    assert row in rows + [row];
    assert forall r :: r in rows ==> r in rows + [row];
    forall id | id in LotIds(rows) ensures id in LotIds(rows + [row]) {
    }
  }

  lemma {:induction false} SelectOk(db: Db, x: Txn, ids: seq<nat>)
    requires x.req.Value() > 0 && Clean(x) && x.req.direction == DEBIT && Selects(db.lots, x.req.User(), ids)
    ensures var y := x.(pc := Locking(ids), left := x.req.Value(), seen := LotIds(db.lots));
      && DebitOk(db.lots, y) && TodoOk(db.lots, y, ids)
      && SeenOk(db.lots, x.req.User(), y.seen, y.rows, ids)
  {
    SelectSees(db.lots, x.req.User(), ids);
    var y := x.(pc := Locking(ids), left := x.req.Value(), seen := LotIds(db.lots));
    LoopStarts(x.req, x.rows, x.balance);
    forall i | 0 <= i < |ids| ensures Lookup(db.lots, ids[i]).Some? {
      assert ids[i] in ids;
    }
  }

  lemma {:induction false} LockOk(db: Db, x: Txn)
    requires x.pc.Locking? && x.pc.todo != [] && DebitOk(db.lots, x) && TodoOk(db.lots, x, x.pc.todo)
    requires SeenOk(db.lots, x.req.User(), x.seen, x.rows, x.pc.todo)
    ensures var y := Advance(db, x, LockNext(0));
      && DebitOk(db.lots, y) && TodoOk(db.lots, y, y.pc.todo)
      && SeenOk(db.lots, y.req.User(), y.seen, y.rows, y.pc.todo)
  {
    LockSees(db.lots, x.req.User(), x.seen, x.rows, x.pc.todo);
    hide SeenOk, Pieces, Lookup, Spent, DebitEntries, Midway;
    var y := Advance(db, x, LockNext(0));
    var todo, row := x.pc.todo, Lookup(db.lots, x.pc.todo[0]).value;
    assert forall i :: 0 <= i < |todo[1..]| ==> todo[1..][i] == todo[i + 1];
    NextRow(db.lots, x, row);
    assert y.rows == x.rows || (y.rows == x.rows + [row] && IsAvailable(row, x.req.User()));
    forall r | r in y.rows ensures r in x.rows || r == row {
    }
  }

  // A row seen under lock goes behind those already read.
  lemma {:induction false} NextRow(lots: seq<Lot>, x: Txn, row: Lot)
    requires DebitOk(lots, x) && x.pieces == [] && Lookup(lots, row.id) == Some(row)
    requires forall r :: r in x.rows ==> r.id != row.id && r.createdAt <= row.createdAt
    ensures IsAvailable(row, x.req.User()) ==>
              Current(lots, x.rows + [row], x.req.User()) && SortedByAge(x.rows + [row])
    ensures Midway(x.req, x.rows + [row], [], x.left, x.balance, x.entries)
  {
    hide Pieces, Lookup;
    LoopStarts(x.req, x.rows + [row], x.balance);
    assert forall j :: 0 <= j < |x.rows| ==> x.rows[j] in x.rows;
  }

  lemma {:induction false} TurnOk(db: Db, x: Txn)
    requires DebitOk(db.lots, x) && x.left != 0 && |x.pieces| < |x.rows|
    ensures DebitOk(db.lots, Advance(db, x, Turn(0)))
  {
    hide Spent, Current, SortedByAge, Midway;
    LoopTurns(x.req, x.rows, x.pieces, x.left, x.balance, x.entries);
  }

  lemma {:induction false} CheckOrReadOk(db: Db, log: seq<Effect>, t: nat, x: Txn, a: Action)
    requires LogOk(db, log) && TxnOk(db, log, t, x)
    requires (a.CheckKeyOf? && x.pc.Checking?) || (a.ReadBalance? && x.pc.Reading?)
    ensures TxnOk(db, log, t, Advance(db, x, a))
  {
    if a.CheckKeyOf? && CheckKey(db.keys, x.req).Some? { KeyHit(db, log, t, x); }
  }

  lemma {:induction false} InsertOk(db: Db, log: seq<Effect>, t: nat, x: Txn, a: Action)
    requires TxnOk(db, log, t, x) && a.Insert? && x.pc.Inserting? && Lookup(db.lots, a.id).None?
    ensures TxnOk(db, log, t, Advance(db, x, a))
  {
  }

  lemma {:induction false} SelectOrLockOk(db: Db, log: seq<Effect>, t: nat, x: Txn, a: Action)
    requires TxnOk(db, log, t, x)
    requires (a.Select? && x.pc.Querying? && Selects(db.lots, x.req.User(), a.ids)) || (a.LockNext? && x.pc.Locking?)
    ensures TxnOk(db, log, t, Advance(db, x, a))
  {
    if a.Select? {
      SelectOk(db, x, a.ids);
    } else if x.pc.todo != [] {
      LockOk(db, x);
      assert Advance(db, x, a) == Advance(db, x, LockNext(0));
    } else {
      assert DebitOk(db.lots, x.(pc := Looping));
    }
  }

  lemma {:induction false} LoopOk(db: Db, log: seq<Effect>, t: nat, x: Txn, a: Action)
    requires TxnOk(db, log, t, x) && x.pc.Looping?
    requires (a.Turn? && x.left != 0 && |x.pieces| < |x.rows|) || a.EndLoop?
    ensures TxnOk(db, log, t, Advance(db, x, a))
  {
    if a.Turn? {
      TurnOk(db, x);
      assert Advance(db, x, a) == Advance(db, x, Turn(0));
    } else if x.left == 0 {
      assert DebitOk(db.lots, x.(pc := Saving));
    }
  }

  lemma {:induction false} KeyOrFailOk(db: Db, log: seq<Effect>, t: nat, x: Txn, a: Action)
    requires TxnOk(db, log, t, x) && !x.pc.Ended? && ((a.InsertKey? && x.pc.Saving?) || a.Fail?)
    ensures TxnOk(db, log, t, Advance(db, x, a))
  {
    var y := Advance(db, x, a);
    if y.pc.Committing? && x.req.direction == DEBIT {
      assert DebitOk(db.lots, y);
    }
  }

  lemma {:induction false} AdvanceOk(s: State, a: Action)
    requires Inv(s) && Enabled(s, a) && !a.Begin? && !a.Commit?
    ensures TxnOk(s.db, s.log, a.t, Advance(s.db, s.txns[a.t], a))
  {
    hide TxnOk, Advance, LogOk, Reconciled, Apart;
    var x := s.txns[a.t];
    assert TxnOk(s.db, s.log, a.t, x);
    match a
    case CheckKeyOf(_) => CheckOrReadOk(s.db, s.log, a.t, x, a);
    case ReadBalance(_) => CheckOrReadOk(s.db, s.log, a.t, x, a);
    case Insert(_, _, _) => InsertOk(s.db, s.log, a.t, x, a);
    case Select(_, _) => SelectOrLockOk(s.db, s.log, a.t, x, a);
    case LockNext(_) => SelectOrLockOk(s.db, s.log, a.t, x, a);
    case Turn(_) => LoopOk(s.db, s.log, a.t, x, a);
    case EndLoop(_) => LoopOk(s.db, s.log, a.t, x, a);
    case InsertKey(_) => KeyOrFailOk(s.db, s.log, a.t, x, a);
    case Fail(_) => KeyOrFailOk(s.db, s.log, a.t, x, a);
  }

  lemma {:induction false} AdvanceApart(s: State, a: Action, u: nat)
    requires Inv(s) && Enabled(s, a) && !a.Begin? && !a.Commit?
    requires u in s.txns && u != a.t
    ensures Apart(Advance(s.db, s.txns[a.t], a), s.txns[u]) && Apart(s.txns[u], Advance(s.db, s.txns[a.t], a))
  {
    hide TxnOk, LogOk, Reconciled, Lookup, Pieces, Balance, CheckKey;
    var x, y := s.txns[a.t], s.txns[u];
    assert Apart(x, y) && Apart(y, x);
  }

  // Replacing one transaction by another that fits in keeps the invariant.
  lemma {:induction false} Replaces(s: State, t: nat, y: Txn)
    requires Inv(s) && TxnOk(s.db, s.log, t, y)
    requires t in s.txns ==> y.req == s.txns[t].req
    requires forall u :: u in s.txns && u != t ==> Apart(y, s.txns[u]) && Apart(s.txns[u], y)
    ensures Inv(s.(txns := s.txns[t := y]))
  {
  }

  lemma {:induction false} SameRequest(db: Db, x: Txn, a: Action)
    ensures Advance(db, x, a).req == x.req
  {
  }

  lemma {:induction false} BeginStep(s: State, t: nat, req: Request)
    requires Inv(s) && t !in s.txns
    ensures Inv(s.(txns := s.txns[t := Start(req)]))
  {
    hide Reconciled, LogOk, TxnOk;
    StartOk(s.db, s.log, t, req);
    Replaces(s, t, Start(req));
  }

  lemma {:induction false} QuietStep(s: State, a: Action)
    requires Inv(s) && Enabled(s, a) && !a.Commit?
    ensures Inv(Step(s, a)) && Step(s, a).db == s.db && Step(s, a).log == s.log
  {
    hide Inv, TxnOk, Apart, Advance;
    if a.Begin? {
      BeginStep(s, a.t, a.req);
    } else {
      AdvanceOk(s, a);
      SameRequest(s.db, s.txns[a.t], a);
      forall u | u in s.txns && u != a.t
        ensures Apart(Advance(s.db, s.txns[a.t], a), s.txns[u]) && Apart(s.txns[u], Advance(s.db, s.txns[a.t], a))
      {
        AdvanceApart(s, a, u);
      }
      Replaces(s, a.t, Advance(s.db, s.txns[a.t], a));
    }
  }

  // --- commit ---------------------------------------------------------------------------

  // What a commit does to the lot table, as another transaction sees it: rows stay, with
  // the same owner and age, and the ones in `kept` do not change at all.
  ghost predicate Grown(lots: seq<Lot>, after: seq<Lot>, kept: set<nat>) {
    && (forall id :: Lookup(lots, id).Some? ==>
          && Lookup(after, id).Some?
          && Lookup(after, id).value.userId == Lookup(lots, id).value.userId
          && Lookup(after, id).value.createdAt == Lookup(lots, id).value.createdAt)
    && (forall id :: id in kept ==> Lookup(after, id) == Lookup(lots, id))
  }

  // Nothing used up becomes usable again.
  ghost predicate NoneRevived(lots: seq<Lot>, after: seq<Lot>) {
    forall id :: Lookup(lots, id).Some? && Lookup(after, id).Some? && Lookup(after, id).value.remaining > 0 ==>
      Lookup(lots, id).value.remaining > 0
  }

  lemma {:induction false} SeenSurvives(lots: seq<Lot>, after: seq<Lot>, kept: set<nat>, user: string,
                                 seen: set<nat>, rows: seq<Lot>, todo: seq<nat>)
    requires SeenOk(lots, user, seen, rows, todo) && Grown(lots, after, kept) && NoneRevived(lots, after)
    ensures SeenOk(after, user, seen, rows, todo)
  {
    hide LotIds;
  }

  lemma {:induction false} ApplyGrows(lots: seq<Lot>, ps: seq<Piece>, kept: set<nat>)
    requires forall p :: p in ps ==> p.lotId !in kept && Lookup(lots, p.lotId).Some?
    ensures Grown(lots, ApplyPieces(lots, ps), kept)
    decreases |ps|
  {
    if ps != [] {
      SetFacts(lots, ps[0].lotId, ps[0].left);
      ApplyGrows(SetRemaining(lots, ps[0].lotId, ps[0].left), ps[1..], kept);
    }
  }

  // A debit about to commit writes exactly the pieces its amount cuts from the rows it holds.
  lemma {:induction false} WholePieces(lots: seq<Lot>, x: Txn)
    requires DebitOk(lots, x) && x.left == 0 && x.req.Value() > 0
    ensures x.pieces == Pieces(x.rows, x.req.Value())
    ensures forall p :: p in x.pieces ==> p.lotId in x.locked && Lookup(lots, p.lotId).Some?
  {
    LoopEnds(x.req, x.rows, x.pieces, 0, x.balance, x.entries);
    PiecesFacts(x.rows, x.req.Value());
    forall p | p in x.pieces ensures p.lotId in x.locked && Lookup(lots, p.lotId).Some? {
      var i :| 0 <= i < |x.pieces| && x.pieces[i] == p;
      assert x.rows[i] in x.rows;
    }
  }

  lemma {:induction false} CommitReconciles(db: Db, x: Txn)
    requires Reconciled(db) && WritesOk(db.lots, x) && x.req.Value() > 0
    ensures Reconciled(CommitDb(db, x))
    ensures Carries(x.req, x.entries)
  {
    var db1 := CommitDb(db, x);
    if x.req.direction == CREDIT {
      CreditReconciles(db, x.lot.value, x.entries[0]);
      assert x.entries[1..] == [];
      assert db1 == db.(lots := InsertLot(db.lots, x.lot.value), ledger := db.ledger + [x.entries[0]],
                        keys := db1.keys);
    } else {
      WholePieces(db.lots, x);
      PiecesReconcile(db, x.req, x.rows, x.req.Value(), x.balance);
      EntriesCarry(x.req, x.pieces, x.balance);
      assert db1 == db.(lots := db1.lots, ledger := db1.ledger, keys := db1.keys);
    }
  }

  lemma {:induction false} KeyUnused(db: Db, log: seq<Effect>, t: nat, x: Txn)
    requires LogOk(db, log) && TxnOk(db, log, t, x) && x.pc.Committing?
    ensures forall i :: 0 <= i < |log| ==> log[i].txn != t && !SameKey(log[i].req, x.req)
  {
  }

  lemma {:induction false} CommitKeys(db: Db, log: seq<Effect>, t: nat, x: Txn)
    requires LogOk(db, log)
    requires forall i :: 0 <= i < |log| ==> !SameKey(log[i].req, x.req)
    ensures var log1, keys1 := log + [Effect(t, x.req, x.entries)], SaveKey(db.keys, x.req, ReplyOf(x));
      && (forall i :: 0 <= i < |log1| && log1[i].req.Keyed() ==>
            log1[i].req.KeyId() in keys1
            && keys1[log1[i].req.KeyId()] == KeyRow(log1[i].req.fields, log1[i].Reply()))
      && (forall k :: k in keys1 ==> exists i :: 0 <= i < |log1| && log1[i].req.Keyed() && log1[i].req.KeyId() == k)
  {
    var e := Effect(t, x.req, x.entries);
    var log1, keys1 := log + [e], SaveKey(db.keys, x.req, ReplyOf(x));
    assert e.Reply() == ReplyOf(x) && log1[|log|] == e;
    forall k | k in keys1
      ensures exists i :: 0 <= i < |log1| && log1[i].req.Keyed() && log1[i].req.KeyId() == k
    {
      if k in db.keys {
        var i :| 0 <= i < |log| && log[i].req.Keyed() && log[i].req.KeyId() == k;
        assert log1[i] == log[i];
      }
    }
  }

  lemma {:induction false} CommitLog(db: Db, log: seq<Effect>, t: nat, x: Txn)
    requires LogOk(db, log) && Carries(x.req, x.entries)
    requires forall i :: 0 <= i < |log| ==> log[i].txn != t && !SameKey(log[i].req, x.req)
    ensures LogOk(CommitDb(db, x), log + [Effect(t, x.req, x.entries)])
  {
    hide Carries, LotsAfter, SaveKey, ReplyOf, SameKey;
    var e := Effect(t, x.req, x.entries);
    CommitKeys(db, log, t, x);
    assert (log + [e])[..|log|] == log;
    assert forall i :: 0 <= i < |log + [e]| ==> (log + [e])[i] == if i < |log| then log[i] else e;
  }

  lemma {:induction false} LogGrows(log: seq<Effect>, e: Effect, t: nat, req: Request, out: Outcome)
    requires OutcomeOk(log, t, req, out) && e.txn != t
    ensures OutcomeOk(log + [e], t, req, out)
  {
    var log1 := log + [e];
    assert forall i :: 0 <= i < |log| ==> log1[i] == log[i];
    match out
    case Done(r) =>
      var i :| 0 <= i < |log| && log[i].txn == t && log[i].req == req && log[i].Reply() == r;
      assert log1[i] == log[i];
    case Replay(r) =>
      var i :| 0 <= i < |log| && SameKey(log[i].req, req) && log[i].req.fields == req.fields && log[i].Reply() == r;
      assert log1[i] == log[i];
    case Error(f) =>
      if f == Unheard {
        var i :| 0 <= i < |log| && log[i].txn == t && log[i].req == req;
        assert log1[i] == log[i];
      } else if f == KeyReused {
        var i :| 0 <= i < |log| && SameKey(log[i].req, req) && log[i].req.fields != req.fields;
        assert log1[i] == log[i];
      }
  }

  // What another transaction has read and is about to write survives the commit.
  lemma {:induction false} DebitSurvives(lots: seq<Lot>, after: seq<Lot>, y: Txn)
    requires DebitOk(lots, y) && Grown(lots, after, y.locked)
    ensures DebitOk(after, y)
    ensures forall todo :: TodoOk(lots, y, todo) ==> TodoOk(after, y, todo)
  {
    forall r | r in y.rows ensures Lookup(after, r.id) == Some(r) {
      assert r.id in y.locked;
    }
  }

  lemma {:induction false} PiecesReviveNone(lots: seq<Lot>, x: Txn)
    requires DebitOk(lots, x) && x.left == 0 && x.req.Value() > 0
    ensures NoneRevived(lots, ApplyPieces(lots, x.pieces))
  {
    WholePieces(lots, x);
    PiecesFacts(x.rows, x.req.Value());
    hide Midway, Pieces, Spent, ApplyPieces;
    var live := set r | r in x.rows :: r.id;
    forall p | p in x.pieces ensures p.lotId in live {
      var i :| 0 <= i < |x.pieces| && x.pieces[i] == p;
      assert x.rows[i] in x.rows;
    }
    forall id | Lookup(lots, id).Some? && id !in live
      ensures Lookup(ApplyPieces(lots, x.pieces), id) == Lookup(lots, id)
    {
      ApplyFrame(lots, x.pieces, id);
    }
  }

  lemma {:induction false} CommitGrows(lots: seq<Lot>, x: Txn, y: Txn)
    requires WritesOk(lots, x) && x.req.Value() > 0 && Apart(x, y)
    requires forall id :: id in y.locked ==> Lookup(lots, id).Some?
    requires y.lot.Some? ==> Lookup(lots, y.lot.value.id).None?
    ensures Grown(lots, LotsAfter(lots, x), y.locked) && NoneRevived(lots, LotsAfter(lots, x))
    ensures y.lot.Some? ==> Lookup(LotsAfter(lots, x), y.lot.value.id).None?
  {
    if x.lot.Some? {
      InsertFacts(lots, x.lot.value);
    } else {
      WholePieces(lots, x);
      ApplyGrows(lots, x.pieces, y.locked);
      PiecesReviveNone(lots, x);
      if y.lot.Some? {
        ApplyFrame(lots, x.pieces, y.lot.value.id);
      }
    }
  }

  lemma {:induction false} OthersSurvive(s: State, t: nat, u: nat)
    requires Inv(s) && t in s.txns && u in s.txns && t != u && s.txns[t].pc.Committing?
    ensures TxnOk(CommitDb(s.db, s.txns[t]), s.log + [Effect(t, s.txns[t].req, s.txns[t].entries)], u, s.txns[u])
  {
    hide Reconciled, LogOk, OutcomeOk, TodoOk, DebitOk, SeenOk, Lookup, LotsAfter;
    var x, y := s.txns[t], s.txns[u];
    var e := Effect(t, x.req, x.entries);
    assert TxnOk(s.db, s.log, t, x) && TxnOk(s.db, s.log, u, y) && Apart(x, y);
    assert forall i :: 0 <= i < |s.log + [e]| ==> (s.log + [e])[i] == if i < |s.log| then s.log[i] else e;
    CommitGrows(s.db.lots, x, y);
    forall todo | SeenOk(s.db.lots, y.req.User(), y.seen, y.rows, todo)
      ensures SeenOk(LotsAfter(s.db.lots, x), y.req.User(), y.seen, y.rows, todo)
    {
      SeenSurvives(s.db.lots, LotsAfter(s.db.lots, x), y.locked, y.req.User(), y.seen, y.rows, todo);
    }
    match y.pc
    case Ended(out) => LogGrows(s.log, e, u, y.req, out);
    case Locking(todo) => DebitSurvives(s.db.lots, LotsAfter(s.db.lots, x), y);
    case Looping => DebitSurvives(s.db.lots, LotsAfter(s.db.lots, x), y);
    case Saving => if y.req.direction == DEBIT { DebitSurvives(s.db.lots, LotsAfter(s.db.lots, x), y); }
    case Committing => if y.req.direction == DEBIT { DebitSurvives(s.db.lots, LotsAfter(s.db.lots, x), y); }
    case _ =>
  }

  lemma {:induction false} CommitTxnsOk(s: State, t: nat, heard: bool, u: nat)
    requires Inv(s) && Enabled(s, Commit(t, heard)) && u in s.txns
    ensures var s1 := Step(s, Commit(t, heard)); TxnOk(s1.db, s1.log, u, s1.txns[u])
  {
    hide Reconciled, CommitDb, Apart, LogOk, WritesOk, DebitOk, LotsAfter;
    if u != t {
      OthersSurvive(s, t, u);
    } else {
      var x := s.txns[t];
      var e := Effect(t, x.req, x.entries);
      assert Step(s, Commit(t, heard)).log[|s.log|] == e && e.Reply() == ReplyOf(x);
    }
  }

  lemma {:induction false} CommitTxnsApart(s: State, t: nat, heard: bool, u: nat, v: nat)
    requires Inv(s) && Enabled(s, Commit(t, heard)) && u in s.txns && v in s.txns && u != v
    ensures var s1 := Step(s, Commit(t, heard)); Apart(s1.txns[u], s1.txns[v])
  {
    hide Reconciled, LogOk, TxnOk, CommitDb;
    assert Apart(s.txns[u], s.txns[v]);
  }

  lemma {:induction false} CommitTables(s: State, t: nat, heard: bool)
    requires Inv(s) && Enabled(s, Commit(t, heard))
    ensures var s1 := Step(s, Commit(t, heard)); Reconciled(s1.db) && LogOk(s1.db, s1.log)
  {
    hide Reconciled, LogOk, Apart, CommitDb, WritesOk;
    var x := s.txns[t];
    assert TxnOk(s.db, s.log, t, x);
    CommitReconciles(s.db, x);
    KeyUnused(s.db, s.log, t, x);
    CommitLog(s.db, s.log, t, x);
  }

  lemma {:induction false} CommitStep(s: State, t: nat, heard: bool)
    requires Inv(s) && Enabled(s, Commit(t, heard))
    ensures Inv(Step(s, Commit(t, heard)))
  {
    hide Reconciled, LogOk, TxnOk, Apart, CommitDb;
    var s1 := Step(s, Commit(t, heard));
    CommitTables(s, t, heard);
    forall u | u in s1.txns ensures TxnOk(s1.db, s1.log, u, s1.txns[u]) {
      CommitTxnsOk(s, t, heard, u);
    }
    forall u, v | u in s1.txns && v in s1.txns && u != v ensures Apart(s1.txns[u], s1.txns[v]) {
      CommitTxnsApart(s, t, heard, u, v);
    }
    forall i | 0 <= i < |s1.log| ensures s1.log[i].txn in s1.txns && s1.txns[s1.log[i].txn].req == s1.log[i].req {
      assert i < |s.log| ==> s1.log[i] == s.log[i];
    }
  }
}
