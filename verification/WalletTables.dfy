// The three tables the wallet lives in (lots, ledger, idempotency keys), the queries over
// them, and what it means for lots and ledger to agree.

module WalletTables {
  import opened Prelude
  import opened JsValues

  // An amount as callers send it: its decimal text, which is what the request hash sees,
  // and the integer BigInt makes of it.
  datatype Amount = Amount(text: string, value: int)

  datatype Direction = CREDIT | DEBIT

  // The fields that go into the request hash. The hash is modelled by the fields
  // themselves: no two different field tuples collide.
  datatype Fields = Fields(amount: Amount, userId: string, reason: string, refType: string, refId: string)

  datatype Request = Request(direction: Direction, appId: string, fields: Fields, key: Field<string>)
  {
    function Value(): int { fields.amount.value }
    function User(): string { fields.userId }
    // The empty key is falsy, so it counts as no key.
    predicate Keyed() { Truthy(key) }
    function KeyId(): KeyId requires key.Val? { Key(appId, key.value) }
  }

  datatype Lot = Lot(id: nat, appId: string, userId: string, initial: int, remaining: int, createdAt: int)
  datatype Entry = Entry(appId: string, userId: string, lotId: nat, direction: Direction, amount: int,
                         reason: string, refType: string, refId: string, snapshot: int)
  datatype Response = Single(entry: Entry) | Many(entries: seq<Entry>)
  datatype KeyId = Key(appId: string, key: string)
  datatype KeyRow = KeyRow(hash: Fields, response: Response)

  // Lots are kept in createdAt order, so a query ordered by createdAt is a filter.
  datatype Db = Db(lots: seq<Lot>, ledger: seq<Entry>, keys: map<KeyId, KeyRow>)

  const EMPTY: Db := Db([], [], map[])

  // --- lots -----------------------------------------------------------------------------

  function Lookup(lots: seq<Lot>, id: nat): (r: Option<Lot>)
    ensures r.Some? ==> r.value in lots && r.value.id == id
    ensures r.None? ==> forall l :: l in lots ==> l.id != id
  {
    if lots == [] then None
    else if lots[0].id == id then Some(lots[0])
    else Lookup(lots[1..], id)
  }

  // `ORDER BY createdAt`, with later inserts last among equals.
  function InsertLot(lots: seq<Lot>, lot: Lot): seq<Lot> {
    if lots == [] then [lot]
    else if lot.createdAt < lots[0].createdAt then [lot] + lots
    else [lots[0]] + InsertLot(lots[1..], lot)
  }

  function SetRemaining(lots: seq<Lot>, id: nat, v: int): seq<Lot> {
    if lots == [] then []
    else if lots[0].id == id then [lots[0].(remaining := v)] + lots[1..]
    else [lots[0]] + SetRemaining(lots[1..], id, v)
  }

  predicate IsAvailable(l: Lot, user: string) { l.userId == user && l.remaining > 0 }

  // Rows a debit may use, oldest first.
  function Available(lots: seq<Lot>, user: string): seq<Lot> {
    if lots == [] then []
    else (if IsAvailable(lots[0], user) then [lots[0]] else []) + Available(lots[1..], user)
  }

  // The SUM query behind getUserBalance.
  function Balance(lots: seq<Lot>, user: string): int {
    if lots == [] then 0
    else (if IsAvailable(lots[0], user) then lots[0].remaining else 0) + Balance(lots[1..], user)
  }

  ghost predicate DistinctIds(lots: seq<Lot>) {
    forall i, j :: 0 <= i < j < |lots| ==> lots[i].id != lots[j].id
  }

  ghost predicate SortedByAge(lots: seq<Lot>) {
    forall i, j :: 0 <= i < j < |lots| ==> lots[i].createdAt <= lots[j].createdAt
  }

  lemma {:induction false} LookupMember(lots: seq<Lot>, l: Lot)
    requires DistinctIds(lots) && l in lots
    ensures Lookup(lots, l.id) == Some(l)
  {
    if lots[0] != l {
      assert l in lots[1..];
      var i :| 0 <= i < |lots[1..]| && lots[1..][i] == l;
      assert lots[i + 1] == l && lots[0].id != l.id;
      LookupMember(lots[1..], l);
    }
  }

  lemma {:induction false} InsertMembers(lots: seq<Lot>, lot: Lot)
    ensures forall l :: l in InsertLot(lots, lot) <==> l in lots || l == lot
  {
    if lots != [] && lot.createdAt >= lots[0].createdAt {
      InsertMembers(lots[1..], lot);
      assert lots == [lots[0]] + lots[1..];
    }
  }

  lemma {:induction false} InsertKeepsOrder(lots: seq<Lot>, lot: Lot)
    ensures SortedByAge(lots) ==> SortedByAge(InsertLot(lots, lot))
    ensures DistinctIds(lots) && Lookup(lots, lot.id).None? ==> DistinctIds(InsertLot(lots, lot))
  {
    if lots != [] && lot.createdAt >= lots[0].createdAt {
      InsertKeepsOrder(lots[1..], lot);
      InsertMembers(lots[1..], lot);
      var rest := InsertLot(lots[1..], lot);
      forall j | 0 <= j < |rest| ensures rest[j] in lots[1..] || rest[j] == lot {
        assert rest[j] in rest;
      }
    }
  }

  lemma {:induction false} InsertBalance(lots: seq<Lot>, lot: Lot, u: string)
    ensures Balance(InsertLot(lots, lot), u)
            == Balance(lots, u) + (if IsAvailable(lot, u) then lot.remaining else 0)
  {
    if lots != [] {
      if lot.createdAt < lots[0].createdAt {
        assert InsertLot(lots, lot)[1..] == lots;
      } else {
        InsertBalance(lots[1..], lot, u);
        assert InsertLot(lots, lot)[1..] == InsertLot(lots[1..], lot);
      }
    }
  }

  lemma {:induction false} InsertLookup(lots: seq<Lot>, lot: Lot, id: nat)
    requires Lookup(lots, lot.id).None?
    ensures Lookup(InsertLot(lots, lot), id) == if id == lot.id then Some(lot) else Lookup(lots, id)
  {
    if lots != [] {
      if lot.createdAt < lots[0].createdAt {
        assert InsertLot(lots, lot)[1..] == lots;
      } else {
        InsertLookup(lots[1..], lot, id);
        assert InsertLot(lots, lot)[1..] == InsertLot(lots[1..], lot);
      }
    }
  }

  lemma {:induction false} InsertFacts(lots: seq<Lot>, lot: Lot)
    requires Lookup(lots, lot.id).None?
    ensures forall u :: Balance(InsertLot(lots, lot), u)
                        == Balance(lots, u) + (if IsAvailable(lot, u) then lot.remaining else 0)
    ensures forall id :: Lookup(InsertLot(lots, lot), id) == if id == lot.id then Some(lot) else Lookup(lots, id)
  {
    forall u { InsertBalance(lots, lot, u); }
    forall id { InsertLookup(lots, lot, id); }
  }

  lemma {:induction false} SetRows(lots: seq<Lot>, id: nat, v: int)
    ensures |SetRemaining(lots, id, v)| == |lots|
    ensures forall i :: 0 <= i < |lots| ==>
              SetRemaining(lots, id, v)[i].(remaining := lots[i].remaining) == lots[i]
  {
    if lots != [] {
      SetRows(lots[1..], id, v);
      assert forall i :: 0 < i < |lots| ==> lots[i] == lots[1..][i - 1];
    }
  }

  lemma {:induction false} SetLookup(lots: seq<Lot>, id: nat, v: int, k: nat)
    requires Lookup(lots, id).Some?
    ensures Lookup(SetRemaining(lots, id, v), k)
         == if k == id then Some(Lookup(lots, id).value.(remaining := v)) else Lookup(lots, k)
  {
    if lots[0].id == id {
      assert SetRemaining(lots, id, v)[1..] == lots[1..];
    } else {
      SetLookup(lots[1..], id, v, k);
      assert SetRemaining(lots, id, v)[1..] == SetRemaining(lots[1..], id, v);
    }
  }

  lemma {:induction false} SetBalance(lots: seq<Lot>, id: nat, v: int, u: string)
    requires Lookup(lots, id).Some? && Lookup(lots, id).value.remaining >= 0 && v >= 0
    ensures Balance(SetRemaining(lots, id, v), u)
         == Balance(lots, u)
            + (if Lookup(lots, id).value.userId == u then v - Lookup(lots, id).value.remaining else 0)
  {
    if lots[0].id == id {
      assert SetRemaining(lots, id, v)[1..] == lots[1..];
    } else {
      SetBalance(lots[1..], id, v, u);
      assert SetRemaining(lots, id, v)[1..] == SetRemaining(lots[1..], id, v);
    }
  }

  lemma {:induction false} SetFacts(lots: seq<Lot>, id: nat, v: int)
    requires Lookup(lots, id).Some?
    ensures |SetRemaining(lots, id, v)| == |lots|
    ensures forall i :: 0 <= i < |lots| ==>
              SetRemaining(lots, id, v)[i].(remaining := lots[i].remaining) == lots[i]
    ensures Lookup(SetRemaining(lots, id, v), id) == Some(Lookup(lots, id).value.(remaining := v))
    ensures forall k :: k != id ==> Lookup(SetRemaining(lots, id, v), k) == Lookup(lots, k)
    ensures v >= 0 && Lookup(lots, id).value.remaining >= 0 ==>
              forall u :: Balance(SetRemaining(lots, id, v), u)
                  == Balance(lots, u) + (if Lookup(lots, id).value.userId == u
                                         then v - Lookup(lots, id).value.remaining else 0)
  {
    hide Lookup, SetRemaining, Balance;
    SetRows(lots, id, v);
    forall k { SetLookup(lots, id, v, k); }
    if v >= 0 && Lookup(lots, id).value.remaining >= 0 {
      forall u { SetBalance(lots, id, v, u); }
    }
  }

  lemma {:induction false} SetKeepsOrder(lots: seq<Lot>, id: nat, v: int)
    requires Lookup(lots, id).Some?
    ensures DistinctIds(lots) ==> DistinctIds(SetRemaining(lots, id, v))
    ensures SortedByAge(lots) ==> SortedByAge(SetRemaining(lots, id, v))
  {
    SetFacts(lots, id, v);
    var s := SetRemaining(lots, id, v);
    forall i | 0 <= i < |lots| ensures s[i].id == lots[i].id && s[i].createdAt == lots[i].createdAt {
      assert s[i].(remaining := lots[i].remaining) == lots[i];
    }
  }

  lemma {:induction false} AvailableFacts(lots: seq<Lot>, user: string)
    ensures forall l :: l in Available(lots, user) <==> l in lots && IsAvailable(l, user)
    ensures Sum(Available(lots, user)) == Balance(lots, user) >= 0
  {
    if lots != [] {
      AvailableFacts(lots[1..], user);
      var a, r := Available(lots, user), Available(lots[1..], user);
      assert lots == [lots[0]] + lots[1..];
      if IsAvailable(lots[0], user) {
        assert a[1..] == r;
      } else {
        assert a == r;
      }
    }
  }

  // A first row goes before rows found behind it.
  lemma {:induction false} FirstRow(lots: seq<Lot>, found: seq<Lot>)
    requires lots != [] && forall r :: r in found ==> r in lots[1..]
    ensures DistinctIds(lots) ==> DistinctIds(lots[1..])
    ensures SortedByAge(lots) ==> SortedByAge(lots[1..])
    ensures DistinctIds(lots) && DistinctIds(found) ==> DistinctIds([lots[0]] + found)
    ensures SortedByAge(lots) && SortedByAge(found) ==> SortedByAge([lots[0]] + found)
  {
    forall j | 0 <= j < |found|
      ensures DistinctIds(lots) ==> lots[0].id != found[j].id
      ensures SortedByAge(lots) ==> lots[0].createdAt <= found[j].createdAt
    {
      assert found[j] in found;
      var i :| 0 <= i < |lots[1..]| && lots[1..][i] == found[j];
      assert lots[i + 1] == found[j];
    }
  }

  lemma {:induction false} AvailableKeepsOrder(lots: seq<Lot>, user: string)
    ensures DistinctIds(lots) ==> DistinctIds(Available(lots, user))
    ensures SortedByAge(lots) ==> SortedByAge(Available(lots, user))
  {
    if lots != [] {
      hide DistinctIds, SortedByAge;
      var r := Available(lots[1..], user);
      AvailableFacts(lots[1..], user);
      FirstRow(lots, r);
      AvailableKeepsOrder(lots[1..], user);
      assert Available(lots, user) == if IsAvailable(lots[0], user) then [lots[0]] + r else r;
    }
  }

  function Sum(lots: seq<Lot>): int {
    if lots == [] then 0 else lots[0].remaining + Sum(lots[1..])
  }

  // --- ledger ---------------------------------------------------------------------------

  datatype Selector = OfLot(lotId: nat, direction: Direction)
                    | OfUser(userId: string, direction: Direction)
                    | OfRef(direction: Direction, reason: string, refType: string, refId: string)

  predicate Matches(e: Entry, sel: Selector) {
    match sel
    case OfLot(id, d) => e.lotId == id && e.direction == d
    case OfUser(u, d) => e.userId == u && e.direction == d
    case OfRef(d, r, t, i) => e.direction == d && e.reason == r && e.refType == t && e.refId == i
  }

  function Total(ledger: seq<Entry>, sel: Selector): int {
    if ledger == [] then 0
    else Total(ledger[..|ledger| - 1], sel)
         + (if Matches(ledger[|ledger| - 1], sel) then ledger[|ledger| - 1].amount else 0)
  }

  function Count(ledger: seq<Entry>, sel: Selector): nat {
    if ledger == [] then 0
    else Count(ledger[..|ledger| - 1], sel) + (if Matches(ledger[|ledger| - 1], sel) then 1 else 0)
  }

  lemma {:induction false} TotalPush(ledger: seq<Entry>, e: Entry)
    ensures forall sel :: Total(ledger + [e], sel)
                          == Total(ledger, sel) + (if Matches(e, sel) then e.amount else 0)
    ensures forall sel :: Count(ledger + [e], sel) == Count(ledger, sel) + (if Matches(e, sel) then 1 else 0)
  {
    assert (ledger + [e])[..|ledger|] == ledger;
  }

  lemma {:induction false} TotalAppend(a: seq<Entry>, b: seq<Entry>, sel: Selector)
    ensures Total(a + b, sel) == Total(a, sel) + Total(b, sel)
  {
    if b == [] {
      assert a + b == a;
    } else {
      var b0 := b[..|b| - 1];
      TotalAppend(a, b0, sel);
      assert (a + b)[..|a + b| - 1] == a + b0;
    }
  }

  // --- agreement of lots and ledger -----------------------------------------------------

  ghost predicate LotReconciled(ledger: seq<Entry>, l: Lot) {
    && 0 < l.initial
    && 0 <= l.remaining <= l.initial
    && Count(ledger, OfLot(l.id, CREDIT)) == 1
    && Total(ledger, OfLot(l.id, CREDIT)) == l.initial
    && l.remaining == l.initial - Total(ledger, OfLot(l.id, DEBIT))
  }

  ghost predicate EntryReconciled(lots: seq<Lot>, e: Entry) {
    && e.amount > 0
    && Lookup(lots, e.lotId).Some?
    && Lookup(lots, e.lotId).value.userId == e.userId
  }

  // Each lot has exactly one CREDIT entry, for its initial amount; what is left of it is
  // that amount minus its DEBIT entries; and a user's credits minus debits is the balance.
  ghost predicate Reconciled(db: Db) {
    && DistinctIds(db.lots) && SortedByAge(db.lots)
    && (forall l :: l in db.lots ==> LotReconciled(db.ledger, l))
    && (forall e :: e in db.ledger ==> EntryReconciled(db.lots, e))
    && (forall u :: Total(db.ledger, OfUser(u, CREDIT)) - Total(db.ledger, OfUser(u, DEBIT))
                    == Balance(db.lots, u))
  }

  lemma {:induction false} NoEntryNoTotal(ledger: seq<Entry>, id: nat)
    requires forall e :: e in ledger ==> e.lotId != id
    ensures forall d :: Total(ledger, OfLot(id, d)) == 0 && Count(ledger, OfLot(id, d)) == 0
  {
    if ledger != [] {
      NoEntryNoTotal(ledger[..|ledger| - 1], id);
    }
  }

  lemma {:induction false} CreditReconciles(db: Db, lot: Lot, e: Entry)
    requires Reconciled(db) && Lookup(db.lots, lot.id).None?
    requires lot.initial == lot.remaining == e.amount > 0
    requires e.direction == CREDIT && e.lotId == lot.id && e.userId == lot.userId
    ensures Reconciled(db.(lots := InsertLot(db.lots, lot), ledger := db.ledger + [e]))
  {
    var lots, ledger := InsertLot(db.lots, lot), db.ledger + [e];
    InsertFacts(db.lots, lot);
    InsertMembers(db.lots, lot);
    InsertKeepsOrder(db.lots, lot);
    TotalPush(db.ledger, e);
    forall x | x in db.ledger ensures x.lotId != lot.id && EntryReconciled(lots, x) {
      assert EntryReconciled(db.lots, x);
    }
    NoEntryNoTotal(db.ledger, lot.id);
    forall l | l in lots ensures LotReconciled(ledger, l) {
      if l != lot {
        assert LotReconciled(db.ledger, l);
        assert l.id != lot.id;
      }
    }
    forall x | x in ledger ensures EntryReconciled(lots, x) {
      assert x in db.ledger || x == e;
    }
  }

  lemma {:induction false} DebitLotReconciles(db: Db, id: nat, v: int, e: Entry, l: Lot)
    requires Reconciled(db) && Lookup(db.lots, id).Some? && l in SetRemaining(db.lots, id, v)
    requires 0 <= v == Lookup(db.lots, id).value.remaining - e.amount
    requires e.direction == DEBIT && e.lotId == id && e.amount > 0
    ensures LotReconciled(db.ledger + [e], l)
  {
    hide Balance, SetRemaining, SortedByAge, Total, Count;
    SetFacts(db.lots, id, v);
    SetKeepsOrder(db.lots, id, v);
    LookupMember(SetRemaining(db.lots, id, v), l);
    TotalPush(db.ledger, e);
    assert LotReconciled(db.ledger, Lookup(db.lots, l.id).value);
  }

  lemma {:induction false} DebitReconciles(db: Db, id: nat, v: int, e: Entry)
    requires Reconciled(db) && Lookup(db.lots, id).Some?
    requires var l := Lookup(db.lots, id).value; 0 <= v == l.remaining - e.amount && e.userId == l.userId
    requires e.direction == DEBIT && e.lotId == id && e.amount > 0
    ensures Reconciled(db.(lots := SetRemaining(db.lots, id, v), ledger := db.ledger + [e]))
  {
    hide LotReconciled, Total, SetRemaining, Balance, DistinctIds, SortedByAge;
    var lots, ledger := SetRemaining(db.lots, id, v), db.ledger + [e];
    forall l | l in lots ensures LotReconciled(ledger, l) {
      DebitLotReconciles(db, id, v, e, l);
    }
    SetFacts(db.lots, id, v);
    SetKeepsOrder(db.lots, id, v);
    TotalPush(db.ledger, e);
    assert Lookup(db.lots, id).value.remaining >= 0 by {
      LotNotNegative(db, Lookup(db.lots, id).value);
    }
    forall x | x in ledger ensures EntryReconciled(lots, x) {
      assert x in db.ledger || x == e;
      assert x in db.ledger ==> EntryReconciled(db.lots, x);
    }
  }

  lemma LotNotNegative(db: Db, l: Lot)
    requires Reconciled(db) && l in db.lots
    ensures l.remaining >= 0
  {
    assert LotReconciled(db.ledger, l);
  }
}
