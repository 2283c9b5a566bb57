// What debitting a wallet means: its lots, oldest first, are a queue of single points, and
// a debit takes points off the front.

module Fifo {
  import opened Prelude
  import opened WalletTables

  // One turn of the debit loop: `amount` points leave a lot, `left` stay.
  datatype Piece = Piece(lotId: nat, amount: int, left: int)

  // The pieces the debit loop cuts from the rows it was given.
  function Pieces(rows: seq<Lot>, amount: int): seq<Piece> {
    if rows == [] || amount == 0 then []
    else
      var d := if amount < rows[0].remaining then amount else rows[0].remaining;
      [Piece(rows[0].id, d, rows[0].remaining - d)] + Pieces(rows[1..], amount - d)
  }

  function Spent(pieces: seq<Piece>): int {
    if pieces == [] then 0 else pieces[0].amount + Spent(pieces[1..])
  }

  function ApplyPieces(lots: seq<Lot>, pieces: seq<Piece>): seq<Lot>
    decreases |pieces|
  {
    if pieces == [] then lots
    else ApplyPieces(SetRemaining(lots, pieces[0].lotId, pieces[0].left), pieces[1..])
  }

  function DebitEntry(req: Request, p: Piece, snapshot: int): Entry {
    Entry(req.appId, req.User(), p.lotId, DEBIT, p.amount,
          req.fields.reason, req.fields.refType, req.fields.refId, snapshot)
  }

  // One ledger entry a piece, each with the running balance after it.
  function DebitEntries(req: Request, pieces: seq<Piece>, balance: int): seq<Entry> {
    if pieces == [] then []
    else [DebitEntry(req, pieces[0], balance - pieces[0].amount)]
         + DebitEntries(req, pieces[1..], balance - pieces[0].amount)
  }

  function EntrySum(es: seq<Entry>): int {
    if es == [] then 0 else es[0].amount + EntrySum(es[1..])
  }

  // The same debit said without a loop: take from each usable row of the table in turn.
  function DebitLots(lots: seq<Lot>, user: string, amount: int): seq<Lot> {
    if lots == [] || amount <= 0 then lots
    else if IsAvailable(lots[0], user) then
      var d := Min(amount, lots[0].remaining);
      [lots[0].(remaining := lots[0].remaining - d)] + DebitLots(lots[1..], user, amount - d)
    else [lots[0]] + DebitLots(lots[1..], user, amount)
  }

  function Repeat(id: nat, n: int): (r: seq<nat>)
    ensures |r| == if n <= 0 then 0 else n
    ensures forall x :: x in r ==> x == id
  {
    if n <= 0 then [] else [id] + Repeat(id, n - 1)
  }

  // The user's points one by one, each tagged with its lot.
  function UnitQueue(lots: seq<Lot>, user: string): (queue: seq<nat>)
    ensures |queue| == Balance(lots, user)
  {
    if lots == [] then []
    else (if IsAvailable(lots[0], user) then Repeat(lots[0].id, lots[0].remaining) else [])
         + UnitQueue(lots[1..], user)
  }

  // --- pieces ---------------------------------------------------------------------------

  // Pieces touch a prefix of the rows; every amount is positive; all touched rows but the
  // last are drained; together they take the amount, or all there is.
  lemma {:induction false} PiecesFacts(rows: seq<Lot>, amount: int)
    requires amount >= 0 && forall r :: r in rows ==> r.remaining > 0
    ensures var ps := Pieces(rows, amount);
      && |ps| <= |rows|
      && (forall i :: 0 <= i < |ps| ==>
            ps[i].lotId == rows[i].id && ps[i].amount > 0 && 0 <= ps[i].left == rows[i].remaining - ps[i].amount)
      && (forall i :: 0 <= i < |ps| - 1 ==> ps[i].left == 0)
      && Spent(ps) == Min(amount, Sum(rows))
  {
    if rows == [] {
    } else {
      var d := if amount < rows[0].remaining then amount else rows[0].remaining;
      PiecesFacts(rows[1..], amount - d);
      if amount > 0 {
        var ps, qs := Pieces(rows, amount), Pieces(rows[1..], amount - d);
        assert ps[1..] == qs;
        assert forall i :: 0 < i < |ps| ==> ps[i] == qs[i - 1] && rows[i] == rows[1..][i - 1];
      } else {
        SumNonNegative(rows);
      }
    }
  }

  lemma {:induction false} SumNonNegative(rows: seq<Lot>)
    requires forall r :: r in rows ==> r.remaining > 0
    ensures Sum(rows) >= 0
  {
    if rows != [] {
      SumNonNegative(rows[1..]);
    }
  }

  lemma {:induction false} SpentPush(ps: seq<Piece>, p: Piece)
    ensures Spent(ps + [p]) == Spent(ps) + p.amount
  {
    if ps != [] {
      assert (ps + [p])[1..] == ps[1..] + [p];
      SpentPush(ps[1..], p);
    }
  }

  lemma {:induction false} ApplyPush(lots: seq<Lot>, ps: seq<Piece>, p: Piece)
    ensures ApplyPieces(lots, ps + [p]) == SetRemaining(ApplyPieces(lots, ps), p.lotId, p.left)
    decreases |ps|
  {
    if ps == [] {
      assert [p][1..] == [];
    } else {
      assert (ps + [p])[1..] == ps[1..] + [p];
      ApplyPush(SetRemaining(lots, ps[0].lotId, ps[0].left), ps[1..], p);
    }
  }

  lemma {:induction false} EntriesPush(req: Request, ps: seq<Piece>, p: Piece, balance: int)
    ensures DebitEntries(req, ps + [p], balance)
            == DebitEntries(req, ps, balance) + [DebitEntry(req, p, balance - Spent(ps) - p.amount)]
  {
    if ps == [] {
      assert [p][1..] == [];
    } else {
      assert (ps + [p])[1..] == ps[1..] + [p];
      EntriesPush(req, ps[1..], p, balance - ps[0].amount);
    }
  }

  // Every entry carries the request's fields; together they move what the pieces take.
  lemma {:induction false} EntriesCarry(req: Request, ps: seq<Piece>, balance: int)
    ensures EntrySum(DebitEntries(req, ps, balance)) == Spent(ps)
    ensures forall e :: e in DebitEntries(req, ps, balance) ==>
              && e.appId == req.appId && e.userId == req.fields.userId && e.direction == DEBIT
              && e.reason == req.fields.reason && e.refType == req.fields.refType && e.refId == req.fields.refId
    ensures |DebitEntries(req, ps, balance)| == |ps|
    decreases |ps|
  {
    if ps != [] {
      var e, rest := DebitEntry(req, ps[0], balance - ps[0].amount), DebitEntries(req, ps[1..], balance - ps[0].amount);
      EntriesCarry(req, ps[1..], balance - ps[0].amount);
      assert ([e] + rest)[1..] == rest && DebitEntries(req, ps, balance) == [e] + rest;
      hide DebitEntries;
      forall f | f in [e] + rest ensures f == e || f in rest {
      }
    }
  }

  // Each entry is for its piece's amount and lot, and its snapshot is the balance less what
  // the debit has taken so far.
  lemma {:induction false} EntryAt(req: Request, ps: seq<Piece>, balance: int, i: nat)
    requires i < |ps|
    ensures var es := DebitEntries(req, ps, balance);
      && |es| == |ps| && es[i].lotId == ps[i].lotId && es[i].amount == ps[i].amount
      && es[i].snapshot == balance - EntrySum(es[..i + 1])
    decreases |ps|
  {
    EntriesCarry(req, ps, balance);
    var e, rest := DebitEntry(req, ps[0], balance - ps[0].amount), DebitEntries(req, ps[1..], balance - ps[0].amount);
    var es := DebitEntries(req, ps, balance);
    assert es == [e] + rest;
    assert es[..i + 1][0] == e && es[..i + 1][1..] == rest[..i];
    assert EntrySum(es[..i + 1]) == ps[0].amount + EntrySum(rest[..i]);
    if i == 0 {
      assert rest[..0] == [];
    } else {
      EntryAt(req, ps[1..], balance - ps[0].amount, i - 1);
      hide EntrySum, DebitEntries;
    }
  }

  // A turn of the loop moves the next piece from those to come to those already cut.
  lemma {:induction false} TurnPieces(rows: seq<Lot>, ps: seq<Piece>, left: int, amount: int)
    requires |ps| < |rows| && left != 0
    requires ps + Pieces(rows[|ps|..], left) == Pieces(rows, amount)
    ensures var row := rows[|ps|];
      var d := if left < row.remaining then left else row.remaining;
      (ps + [Piece(row.id, d, row.remaining - d)]) + Pieces(rows[|ps| + 1..], left - d) == Pieces(rows, amount)
  {
    assert rows[|ps|..][1..] == rows[|ps| + 1..];
  }

  // What the loop's variables say between turns: the pieces cut so far are the first of
  // those the amount cuts from the rows, `left` is still to come, and the entries match.
  ghost predicate Midway(req: Request, rows: seq<Lot>, ps: seq<Piece>, left: int, balance: int, entries: seq<Entry>) {
    && |ps| <= |rows|
    && ps + Pieces(rows[|ps|..], left) == Pieces(rows, req.Value())
    && left + Spent(ps) == req.Value()
    && entries == DebitEntries(req, ps, balance)
  }

  lemma {:induction false} LoopStarts(req: Request, rows: seq<Lot>, balance: int)
    ensures Midway(req, rows, [], req.Value(), balance, [])
  {
    assert rows[0..] == rows;
    assert [] + Pieces(rows, req.Value()) == Pieces(rows, req.Value());
  }

  lemma {:induction false} LoopTurns(req: Request, rows: seq<Lot>, ps: seq<Piece>, left: int, balance: int,
          entries: seq<Entry>)
    requires Midway(req, rows, ps, left, balance, entries) && left != 0 && |ps| < |rows|
    ensures var row := rows[|ps|];
      var d := if left < row.remaining then left else row.remaining;
      var p := Piece(row.id, d, row.remaining - d);
      && Midway(req, rows, ps + [p], left - d, balance, entries + [DebitEntry(req, p, balance - Spent(ps) - d)])
      && Spent(ps + [p]) == Spent(ps) + d
  {
    hide Pieces, Spent, DebitEntries;
    var row := rows[|ps|];
    var d := if left < row.remaining then left else row.remaining;
    var p := Piece(row.id, d, row.remaining - d);
    TurnPieces(rows, ps, left, req.Value());
    SpentPush(ps, p);
    EntriesPush(req, ps, p, balance);
  }

  // When the amount or the rows have run out, everything is cut.
  lemma {:induction false} LoopEnds(req: Request, rows: seq<Lot>, ps: seq<Piece>, left: int, balance: int,
          entries: seq<Entry>)
    requires Midway(req, rows, ps, left, balance, entries) && (left == 0 || |ps| == |rows|)
    ensures ps == Pieces(rows, req.Value()) && entries == DebitEntries(req, ps, balance)
    ensures left + Spent(ps) == req.Value()
  {
    assert ps + [] == ps;
  }

  // A row no piece names stays as it was.
  lemma {:induction false} ApplyFrame(lots: seq<Lot>, ps: seq<Piece>, id: nat)
    requires forall p :: p in ps ==> p.lotId != id && Lookup(lots, p.lotId).Some?
    ensures Lookup(ApplyPieces(lots, ps), id) == Lookup(lots, id)
    decreases |ps|
  {
    if ps != [] {
      SetFacts(lots, ps[0].lotId, ps[0].left);
      ApplyFrame(SetRemaining(lots, ps[0].lotId, ps[0].left), ps[1..], id);
    }
  }

  lemma {:induction false} ApplySkips(l: Lot, lots: seq<Lot>, ps: seq<Piece>)
    requires forall p :: p in ps ==> p.lotId != l.id
    ensures ApplyPieces([l] + lots, ps) == [l] + ApplyPieces(lots, ps)
    decreases |ps|
  {
    if ps != [] {
      ApplySkips(l, SetRemaining(lots, ps[0].lotId, ps[0].left), ps[1..]);
      assert ([l] + lots)[1..] == lots;
    }
  }

  lemma {:induction false} FirstTurn(head: Lot, rest: seq<Lot>, rows: seq<Lot>, amount: int)
    requires amount > 0 && head.remaining > 0
    requires var d := Min(amount, head.remaining);
      forall p :: p in Pieces(rows, amount - d) ==> p.lotId != head.id
    ensures var d := Min(amount, head.remaining);
      ApplyPieces([head] + rest, Pieces([head] + rows, amount))
      == [head.(remaining := head.remaining - d)] + ApplyPieces(rest, Pieces(rows, amount - d))
  {
    var d := Min(amount, head.remaining);
    var p, ps := Piece(head.id, d, head.remaining - d), Pieces(rows, amount - d);
    assert ([head] + rows)[1..] == rows;
    assert Pieces([head] + rows, amount) == [p] + ps;
    assert ([p] + ps)[1..] == ps && ([head] + rest)[1..] == rest;
    ApplySkips(head.(remaining := p.left), rest, ps);
  }

  // The loop's row updates are the loop-free debit.
  lemma {:induction false} LoopIsDebit(lots: seq<Lot>, user: string, amount: int)
    requires DistinctIds(lots) && amount >= 0
    ensures ApplyPieces(lots, Pieces(Available(lots, user), amount)) == DebitLots(lots, user, amount)
  {
    if lots != [] && amount > 0 {
      var head, rest := lots[0], lots[1..];
      var rows := Available(rest, user);
      assert lots == [head] + rest;
      hide ApplyPieces, Pieces;
      if IsAvailable(head, user) {
        var d := Min(amount, head.remaining);
        assert Available(lots, user) == [head] + rows;
        NotNamed(lots, user, amount - d);
        LoopIsDebit(rest, user, amount - d);
        FirstTurn(head, rest, rows, amount);
      } else {
        assert Available(lots, user) == rows;
        NotNamed(lots, user, amount);
        LoopIsDebit(rest, user, amount);
        ApplySkips(head, rest, Pieces(rows, amount));
      }
    }
  }

  lemma {:induction false} NotNamed(lots: seq<Lot>, user: string, amount: int)
    requires DistinctIds(lots) && lots != [] && amount >= 0
    ensures forall p :: p in Pieces(Available(lots[1..], user), amount) ==> p.lotId != lots[0].id
  {
    var rest := lots[1..];
    var rows := Available(rest, user);
    AvailableFacts(rest, user);
    PiecesFacts(rows, amount);
    var ps := Pieces(rows, amount);
    forall p | p in ps ensures p.lotId != lots[0].id {
      var i :| 0 <= i < |ps| && ps[i] == p;
      assert rows[i] in rest;
      var j :| 0 <= j < |rest| && rest[j] == rows[i];
      assert lots[j + 1].id == p.lotId;
    }
  }

  // --- the debit as a queue operation ---------------------------------------------------

  lemma {:induction false} RepeatDrops(id: nat, n: int, d: int)
    requires 0 <= d <= n
    ensures Repeat(id, n)[d..] == Repeat(id, n - d)
  {
    if d > 0 {
      RepeatDrops(id, n - 1, d - 1);
      assert Repeat(id, n)[d..] == Repeat(id, n - 1)[d - 1..];
    }
  }

  lemma {:induction false} BalanceNonNegative(lots: seq<Lot>, user: string)
    ensures Balance(lots, user) >= 0
  {
    AvailableFacts(lots, user);
  }

  lemma DropConcat(r: seq<nat>, q: seq<nat>, n: int)
    requires 0 <= n <= |r| + |q|
    ensures (r + q)[n..] == if n <= |r| then r[n..] + q else q[n - |r|..]
  {
  }

  lemma {:induction false} HeadTurn(head: Lot, rest: seq<Lot>, user: string, amount: int)
    requires IsAvailable(head, user) && amount > 0
    ensures var d := Min(amount, head.remaining);
      UnitQueue(DebitLots([head] + rest, user, amount), user)
      == Repeat(head.id, head.remaining - d) + UnitQueue(DebitLots(rest, user, amount - d), user)
  {
    var d := Min(amount, head.remaining);
    var tail := DebitLots(rest, user, amount - d);
    assert ([head] + rest)[1..] == rest;
    assert ([head.(remaining := head.remaining - d)] + tail)[1..] == tail;
  }

  lemma {:induction false} UnitsOfHead(head: Lot, rest: seq<Lot>, user: string)
    ensures UnitQueue([head] + rest, user)
         == (if IsAvailable(head, user) then Repeat(head.id, head.remaining) else []) + UnitQueue(rest, user)
    ensures Balance([head] + rest, user)
         == (if IsAvailable(head, user) then head.remaining else 0) + Balance(rest, user)
  {
    assert ([head] + rest)[1..] == rest;
  }

  lemma {:induction false} HeadDrops(head: Lot, rest: seq<Lot>, user: string, amount: int)
    requires IsAvailable(head, user) && 0 < amount <= Balance([head] + rest, user)
    requires var d := Min(amount, head.remaining);
      amount - d <= Balance(rest, user)
      && UnitQueue(DebitLots(rest, user, amount - d), user) == UnitQueue(rest, user)[amount - d..]
    ensures UnitQueue(DebitLots([head] + rest, user, amount), user) == UnitQueue([head] + rest, user)[amount..]
  {
    hide UnitQueue, DebitLots, Balance, Repeat;
    var d := Min(amount, head.remaining);
    UnitsOfHead(head, rest, user);
    HeadTurn(head, rest, user, amount);
    RepeatDrops(head.id, head.remaining, d);
    DropConcat(Repeat(head.id, head.remaining), UnitQueue(rest, user), amount);
  }

  // A debit of a drops exactly the first a points of its user ...
  lemma {:induction false} DebitDropsUnits(lots: seq<Lot>, user: string, amount: int)
    requires 0 <= amount <= Balance(lots, user)
    ensures UnitQueue(DebitLots(lots, user, amount), user) == UnitQueue(lots, user)[amount..]
  {
    if lots != [] && amount > 0 {
      var head, rest := lots[0], lots[1..];
      assert lots == [head] + rest;
      var d := if IsAvailable(head, user) then Min(amount, head.remaining) else 0;
      UnitsOfHead(head, rest, user);
      BalanceNonNegative(rest, user);
      DebitDropsUnits(rest, user, amount - d);
      if IsAvailable(head, user) {
        HeadDrops(head, rest, user, amount);
      } else {
        UnitsOfHead(head, DebitLots(rest, user, amount), user);
      }
    }
  }

  // ... and nobody else's.
  lemma {:induction false} DebitSparesOthers(lots: seq<Lot>, user: string, amount: int, other: string)
    requires other != user
    ensures UnitQueue(DebitLots(lots, user, amount), other) == UnitQueue(lots, other)
  {
    if lots != [] && amount > 0 {
      var d := if IsAvailable(lots[0], user) then Min(amount, lots[0].remaining) else 0;
      DebitSparesOthers(lots[1..], user, amount - d, other);
      assert DebitLots(lots, user, amount)[1..] == DebitLots(lots[1..], user, amount - d);
    }
  }

  // Two debits in a row are one debit of the sum, whatever the funds.
  lemma {:induction false} DebitsCompose(lots: seq<Lot>, user: string, a: int, b: int)
    requires a >= 0 && b >= 0
    ensures DebitLots(DebitLots(lots, user, a), user, b) == DebitLots(lots, user, a + b)
  {
    if lots != [] && a > 0 {
      var once := DebitLots(lots, user, a);
      if IsAvailable(lots[0], user) {
        var d := Min(a, lots[0].remaining);
        assert once[1..] == DebitLots(lots[1..], user, a - d);
        if d < lots[0].remaining {
          assert DebitLots(lots[1..], user, 0) == lots[1..];
        } else {
          DebitsCompose(lots[1..], user, a - d, b);
        }
      } else {
        assert once[1..] == DebitLots(lots[1..], user, a);
        DebitsCompose(lots[1..], user, a, b);
      }
    }
  }

  // What the user can spend from lots no younger than `time`.
  function OlderBalance(lots: seq<Lot>, user: string, time: int): int {
    if lots == [] then 0
    else (if IsAvailable(lots[0], user) && lots[0].createdAt <= time then lots[0].remaining else 0)
         + OlderBalance(lots[1..], user, time)
  }

  lemma {:induction false} OlderBalanceFacts(lots: seq<Lot>, user: string, time: int)
    ensures 0 <= OlderBalance(lots, user, time)
    ensures (forall l :: l in lots ==> l.createdAt > time) ==> OlderBalance(lots, user, time) == 0
    ensures (forall l :: l in lots ==> l.createdAt <= time) ==>
              OlderBalance(lots, user, time) == Balance(lots, user)
  {
    if lots != [] {
      OlderBalanceFacts(lots[1..], user, time);
    }
  }

  // An older lot goes first: then the debit spends from it before all others.
  lemma {:induction false} CreditGoesFirst(lots: seq<Lot>, user: string, amount: int, lot: Lot)
    requires SortedByAge(lots) && amount > 0 && lots != [] && lot.createdAt < lots[0].createdAt
    ensures DebitLots(InsertLot(lots, lot), user, amount) == InsertLot(DebitLots(lots, user, amount), lot)
            <==> !IsAvailable(lot, user)
    ensures OlderBalance(lots, user, lot.createdAt) == 0
  {
    OlderBalanceFacts(lots, user, lot.createdAt);
    forall l | l in lots ensures l.createdAt > lot.createdAt {
      var i :| 0 <= i < |lots| && lots[i] == l;
      assert i > 0 ==> lots[0].createdAt <= lots[i].createdAt;
    }
    assert InsertLot(lots, lot)[1..] == lots;
    assert InsertLot(DebitLots(lots, user, amount), lot)[0] == lot;
  }

  // A younger one goes behind the first row, which both orders treat alike.
  lemma {:induction false} CreditGoesBehind(lots: seq<Lot>, user: string, amount: int, lot: Lot)
    requires amount > 0 && lots != [] && lot.createdAt >= lots[0].createdAt
    ensures var rest, d := lots[1..], if IsAvailable(lots[0], user) then Min(amount, lots[0].remaining) else 0;
      DebitLots(InsertLot(lots, lot), user, amount) == InsertLot(DebitLots(lots, user, amount), lot)
      <==> DebitLots(InsertLot(rest, lot), user, amount - d) == InsertLot(DebitLots(rest, user, amount - d), lot)
  {
    var head, rest := lots[0], lots[1..];
    var d := if IsAvailable(head, user) then Min(amount, head.remaining) else 0;
    var left := DebitLots(InsertLot(lots, lot), user, amount);
    var right := InsertLot(DebitLots(lots, user, amount), lot);
    assert InsertLot(lots, lot)[1..] == InsertLot(rest, lot);
    assert DebitLots(lots, user, amount)[1..] == DebitLots(rest, user, amount - d);
    assert left[1..] == DebitLots(InsertLot(rest, lot), user, amount - d);
    assert right[1..] == InsertLot(DebitLots(rest, user, amount - d), lot);
    assert left == [left[0]] + left[1..] && right == [left[0]] + right[1..];
  }

  // A debit and a credit commute exactly when the new lot is out of the debit's reach:
  // not usable by it, or behind enough older funds. A credit that comes last in time is
  // behind all of them, so a debit the old balance covers commutes with it.
  lemma {:induction false} DebitCommutesWithCredit(lots: seq<Lot>, user: string, amount: int, lot: Lot)
    requires SortedByAge(lots) && amount > 0
    ensures DebitLots(InsertLot(lots, lot), user, amount) == InsertLot(DebitLots(lots, user, amount), lot)
            <==> !IsAvailable(lot, user) || amount <= OlderBalance(lots, user, lot.createdAt)
    ensures (forall l :: l in lots ==> l.createdAt <= lot.createdAt) ==>
              OlderBalance(lots, user, lot.createdAt) == Balance(lots, user)
  {
    OlderBalanceFacts(lots, user, lot.createdAt);
    if lots == [] {
      assert [lot][1..] == [];
    } else if lot.createdAt < lots[0].createdAt {
      CreditGoesFirst(lots, user, amount, lot);
    } else {
      var d := if IsAvailable(lots[0], user) then Min(amount, lots[0].remaining) else 0;
      OlderBalanceFacts(lots[1..], user, lot.createdAt);
      CreditGoesBehind(lots, user, amount, lot);
      if amount - d > 0 {
        DebitCommutesWithCredit(lots[1..], user, amount - d, lot);
      }
    }
  }

  // A credit that comes last puts its points at the back of its user's queue.
  lemma {:induction false} CreditQueuesLast(lots: seq<Lot>, lot: Lot)
    requires forall l :: l in lots ==> l.createdAt <= lot.createdAt
    requires lot.remaining > 0
    ensures UnitQueue(InsertLot(lots, lot), lot.userId)
            == UnitQueue(lots, lot.userId) + Repeat(lot.id, lot.remaining)
  {
    if lots == [] {
      assert [lot][1..] == [];
    } else {
      CreditQueuesLast(lots[1..], lot);
      assert InsertLot(lots, lot)[1..] == InsertLot(lots[1..], lot);
    }
  }
}
