// First in, first out under concurrency: which of a user's lots a committing debit may pass
// over, and exactly when what it writes is the debit of the whole table.

module WalletFifo {
  import opened Prelude
  import opened JsValues
  import opened WalletTables
  import opened Fifo
  import opened Points
  import opened WalletRuns
  import opened WalletSafety

  ghost predicate Debiting(s: State, t: nat) {
    t in s.txns && s.txns[t].pc.Committing? && s.txns[t].req.direction == DEBIT
  }

  // What the invariant says of a debit about to commit.
  lemma {:induction false} AboutToCommit(s: State, t: nat)
    requires Reachable(s) && Debiting(s, t)
    ensures var x, lots := s.txns[t], s.db.lots;
      && DistinctIds(lots) && SortedByAge(lots) && x.req.Value() > 0
      && DebitOk(lots, x) && x.left == 0 && x.lot.None? && SeenOk(lots, x.req.User(), x.seen, x.rows, [])
      && x.pieces == Pieces(x.rows, x.req.Value()) && 0 < |x.pieces| <= |x.rows| && Spent(x.pieces) == x.req.Value()
      && (forall i :: 0 <= i < |x.pieces| ==>
            x.pieces[i].lotId == x.rows[i].id && x.pieces[i].amount > 0
            && 0 <= x.pieces[i].left == x.rows[i].remaining - x.pieces[i].amount)
      && (forall i :: 0 <= i < |x.pieces| - 1 ==> x.pieces[i].left == 0)
  {
    var x := s.txns[t];
    Writing(s, t);
    assert DistinctIds(s.db.lots) && SortedByAge(s.db.lots) by { ReachableOk(s); }
    hide Reachable, SeenOk, Current;
    WholePieces(s.db.lots, x);
    PiecesFacts(x.rows, x.req.Value());
    LoopEnds(x.req, x.rows, x.pieces, 0, x.balance, x.entries);
  }

  // The youngest lot the debit takes from.
  function LastTouched(x: Txn): Lot
    requires 0 < |x.pieces| <= |x.rows|
  {
    x.rows[|x.pieces| - 1]
  }

  lemma {:induction false} HeldRow(lots: seq<Lot>, x: Txn, l: Lot)
    requires DistinctIds(lots) && DebitOk(lots, x) && SeenOk(lots, x.req.User(), x.seen, x.rows, [])
    requires l in lots && IsAvailable(l, x.req.User()) && l.id in x.seen
    ensures l in x.rows
  {
    LookupMember(lots, l);
    var r :| r in x.rows && r.id == l.id;
  }

  // A lot that was there when the debit selected its rows, and still has points, is held;
  // if it is older than the last one touched, it is drained.
  lemma {:induction false} SeenLotsComeFirst(s: State, t: nat, l: Lot)
    requires Reachable(s) && Debiting(s, t)
    requires l in s.db.lots && IsAvailable(l, s.txns[t].req.User()) && l.id in s.txns[t].seen
    ensures var x := s.txns[t];
      && l in x.rows && 0 < |x.pieces| <= |x.rows|
      && (l.createdAt < LastTouched(x).createdAt ==>
            exists i :: 0 <= i < |x.pieces| - 1 && x.pieces[i].lotId == l.id && x.pieces[i].left == 0)
  {
    var x := s.txns[t];
    AboutToCommit(s, t);
    hide Reachable, Midway, SeenOk;
    assert l in x.rows by { assert SeenOk(s.db.lots, x.req.User(), x.seen, x.rows, []); HeldRow(s.db.lots, x, l); }
    var i :| 0 <= i < |x.rows| && x.rows[i] == l;
    if l.createdAt < LastTouched(x).createdAt {
      assert i < |x.pieces| - 1;
      assert x.pieces[i].lotId == l.id;
    }
  }

  // --- the first rows -------------------------------------------------------------------

  ghost predicate StrictAges(rows: seq<Lot>) {
    forall i, j :: 0 <= i < j < |rows| ==> rows[i].createdAt < rows[j].createdAt
  }

  // No two usable lots of the user are of one age.
  ghost predicate DistinctAges(lots: seq<Lot>, user: string) {
    forall l, m :: l in lots && m in lots && IsAvailable(l, user) && IsAvailable(m, user) ==>
      l.createdAt == m.createdAt ==> l == m
  }

  lemma {:induction false} AgesAreStrict(lots: seq<Lot>, user: string, rows: seq<Lot>)
    requires DistinctAges(lots, user) && DistinctIds(rows) && SortedByAge(rows)
    requires forall r :: r in rows ==> r in lots && IsAvailable(r, user)
    ensures StrictAges(rows)
  {
    forall i, j | 0 <= i < j < |rows| ensures rows[i].createdAt < rows[j].createdAt {
      assert rows[i] in rows && rows[j] in rows && rows[i].id != rows[j].id;
    }
  }

  ghost predicate Within(rows: seq<Lot>, all: seq<Lot>) {
    forall r :: r in rows ==> r in all
  }

  ghost predicate MissesNone(all: seq<Lot>, rows: seq<Lot>, age: int) {
    forall l :: l in all && l.createdAt <= age ==> l in rows
  }

  ghost predicate SamePrefix(all: seq<Lot>, rows: seq<Lot>, i: nat) {
    i <= |all| && i <= |rows| && forall n :: 0 <= n < i ==> all[n] == rows[n]
  }

  lemma {:induction false} NotBefore(a: seq<Lot>, b: seq<Lot>, i: nat, j: nat)
    requires StrictAges(b) && i < |b| && j < |a| && a[j] == b[i] && SamePrefix(a, b, i)
    ensures i <= j
  {
  }

  lemma PlaceOf(rows: seq<Lot>, l: Lot) returns (i: nat)
    requires l in rows
    ensures i < |rows| && rows[i] == l
  {
    i :| 0 <= i < |rows| && rows[i] == l;
  }

  lemma AgesGrow(rows: seq<Lot>, i: nat, j: nat)
    requires StrictAges(rows) && i <= j < |rows|
    ensures rows[i].createdAt <= rows[j].createdAt
    ensures rows[i].createdAt == rows[j].createdAt ==> i == j
  {
  }

  lemma MemberOf(rows: seq<Lot>, all: seq<Lot>, age: int, l: Lot)
    ensures Within(rows, all) && l in rows ==> l in all
    ensures MissesNone(all, rows, age) && l in all && l.createdAt <= age ==> l in rows
  {
  }

  lemma {:induction false} SameAt(all: seq<Lot>, rows: seq<Lot>, k: nat, i: nat)
    requires StrictAges(all) && StrictAges(rows) && i < k <= |rows| && Within(rows, all)
    requires MissesNone(all, rows, rows[k - 1].createdAt) && SamePrefix(all, rows, i)
    ensures i < |all| && all[i] == rows[i]
  {
    hide Within, MissesNone, SamePrefix, StrictAges;
    MemberOf(rows, all, 0, rows[i]);
    var j := PlaceOf(all, rows[i]);
    SamePrefixBothWays(all, rows, i);
    NotBefore(all, rows, i, j);
    AgesGrow(all, i, j);
    AgesGrow(rows, i, k - 1);
    MemberOf(rows, all, rows[k - 1].createdAt, all[i]);
    var m := PlaceOf(rows, all[i]);
    NotBefore(rows, all, i, m);
    AgesGrow(rows, i, m);
  }

  lemma SamePrefixBothWays(all: seq<Lot>, rows: seq<Lot>, i: nat)
    requires SamePrefix(all, rows, i)
    ensures SamePrefix(rows, all, i)
  {
  }

  // Rows that miss no lot as old as their k-th start like the full list.
  lemma {:induction false} SameStart(all: seq<Lot>, rows: seq<Lot>, k: nat, i: nat)
    requires StrictAges(all) && StrictAges(rows) && i <= k && 0 < k <= |rows| && Within(rows, all)
    requires MissesNone(all, rows, rows[k - 1].createdAt)
    ensures SamePrefix(all, rows, i)
  {
    hide Within, MissesNone, StrictAges;
    if i > 0 {
      SameStart(all, rows, k, i - 1);
      SameAt(all, rows, k, i - 1);
    }
  }

  lemma PrefixSlices(all: seq<Lot>, rows: seq<Lot>, k: nat)
    requires SamePrefix(all, rows, k)
    ensures k <= |all| && k <= |rows| && all[..k] == rows[..k]
  {
  }

  // The pieces depend only on the rows they touch, if those have enough.
  lemma {:induction false} PiecesNeedOnlyTheirRows(rows: seq<Lot>, all: seq<Lot>, amount: int)
    requires amount >= 0 && (forall r :: r in rows ==> r.remaining > 0)
    requires var n := |Pieces(rows, amount)|; n <= |rows| && n <= |all| && rows[..n] == all[..n]
    requires Spent(Pieces(rows, amount)) == amount
    ensures Pieces(all, amount) == Pieces(rows, amount)
    decreases |rows|
  {
    if rows != [] && amount > 0 {
      var n := |Pieces(rows, amount)|;
      assert rows[0] == rows[..n][0] == all[..n][0] == all[0];
      var d := if amount < rows[0].remaining then amount else rows[0].remaining;
      assert Pieces(rows, amount)[1..] == Pieces(rows[1..], amount - d);
      assert rows[1..][..n - 1] == rows[..n][1..] == all[..n][1..] == all[1..][..n - 1];
      assert rows[0] in rows;
      PiecesNeedOnlyTheirRows(rows[1..], all[1..], amount - d);
    }
  }

  // --- a table debit goes in order ------------------------------------------------------

  lemma {:induction false} Behind(lots: seq<Lot>, l: Lot)
    requires DistinctIds(lots) && SortedByAge(lots) && l in lots && lots[0] != l
    ensures l in lots[1..] && l.id != lots[0].id && lots[0].createdAt <= l.createdAt
  {
    var i :| 0 <= i < |lots| && lots[i] == l;
    assert lots[1..][i - 1] == l;
  }

  lemma {:induction false} FirstKeeps(lots: seq<Lot>, user: string, amount: int)
    requires lots != [] && IsAvailable(lots[0], user) && amount > 0
    requires Lookup(DebitLots(lots, user, amount), lots[0].id).Some?
    requires Lookup(DebitLots(lots, user, amount), lots[0].id).value.remaining > 0
    ensures DebitLots(lots[1..], user, amount - Min(amount, lots[0].remaining)) == lots[1..]
  {
    assert DebitLots(lots, user, amount)[0].id == lots[0].id;
  }

  lemma {:induction false} BehindHead(lots: seq<Lot>, user: string, amount: int, id: nat)
    requires lots != [] && amount > 0 && lots[0].id != id
    ensures var d := if IsAvailable(lots[0], user) then Min(amount, lots[0].remaining) else 0;
      Lookup(DebitLots(lots, user, amount), id) == Lookup(DebitLots(lots[1..], user, amount - d), id)
  {
    var d := if IsAvailable(lots[0], user) then Min(amount, lots[0].remaining) else 0;
    assert DebitLots(lots, user, amount)[1..] == DebitLots(lots[1..], user, amount - d);
  }

  lemma NoDebit(lots: seq<Lot>, user: string)
    ensures DebitLots(lots, user, 0) == lots
  {
  }

  // If a usable lot keeps points, no younger usable lot is touched.
  lemma {:induction false} DebitInOrder(lots: seq<Lot>, user: string, amount: int, l: Lot, m: Lot)
    requires DistinctIds(lots) && SortedByAge(lots) && amount >= 0
    requires l in lots && m in lots && IsAvailable(l, user) && IsAvailable(m, user) && l.createdAt < m.createdAt
    requires Lookup(DebitLots(lots, user, amount), l.id).Some?
    requires Lookup(DebitLots(lots, user, amount), l.id).value.remaining > 0
    ensures Lookup(DebitLots(lots, user, amount), m.id) == Some(m)
  {
    hide DebitLots, Lookup, DistinctIds, SortedByAge;
    LookupMember(lots, m);
    if amount == 0 {
      NoDebit(lots, user);
    } else {
      var head, rest := lots[0], lots[1..];
      FirstRow(lots, rest);
      assert head != m by { if head != l { Behind(lots, l); } }
      Behind(lots, m);
      BehindHead(lots, user, amount, m.id);
      if head == l {
        FirstKeeps(lots, user, amount);
        LookupMember(rest, m);
      } else {
        Behind(lots, l);
        BehindHead(lots, user, amount, l.id);
        DebitInOrder(rest, user, amount - (if IsAvailable(head, user) then Min(amount, head.remaining) else 0), l, m);
      }
    }
  }

  lemma {:induction false} LastIsReduced(lots: seq<Lot>, x: Txn)
    requires DebitOk(lots, x) && 0 < |x.pieces| <= |x.rows|
    requires forall i :: 0 <= i < |x.pieces| ==> x.pieces[i].lotId == x.rows[i].id
    ensures var p := x.pieces[|x.pieces| - 1];
      Lookup(ApplyPieces(lots, x.pieces), p.lotId).Some?
      && Lookup(ApplyPieces(lots, x.pieces), p.lotId).value.remaining == p.left
  {
    var n := |x.pieces| - 1;
    var before, p := x.pieces[..n], x.pieces[n];
    assert x.pieces == before + [p];
    ApplyPush(lots, before, p);
    forall q | q in before ensures Lookup(lots, q.lotId).Some? {
      var i :| 0 <= i < n && before[i] == q;
      assert x.rows[i] in x.rows;
    }
    ApplyGrows(lots, before, {});
    assert x.rows[n] in x.rows;
    SetFacts(ApplyPieces(lots, before), p.lotId, p.left);
  }

  // --- the exact condition --------------------------------------------------------------

  // No usable lot that the query did not see is as old as the last one touched.
  ghost predicate NoneOvertaken(lots: seq<Lot>, x: Txn)
    requires 0 < |x.pieces| <= |x.rows|
  {
    forall l :: l in lots && IsAvailable(l, x.req.User()) && l.id !in x.seen ==>
      l.createdAt > LastTouched(x).createdAt
  }

  lemma {:induction false} InOrderIfNoneOvertaken(s: State, t: nat)
    requires Reachable(s) && Debiting(s, t) && DistinctAges(s.db.lots, s.txns[t].req.User())
    requires 0 < |s.txns[t].pieces| <= |s.txns[t].rows| && NoneOvertaken(s.db.lots, s.txns[t])
    ensures var x := s.txns[t];
      && LotsAfter(s.db.lots, x) == DebitLots(s.db.lots, x.req.User(), x.req.Value())
      && x.req.Value() <= Balance(s.db.lots, x.req.User())
  {
    var x, lots := s.txns[t], s.db.lots;
    var user, a, k := x.req.User(), x.req.Value(), |x.pieces|;
    var all := Available(lots, user);
    AboutToCommit(s, t);
    hide Reachable;
    AvailableFacts(lots, user);
    AvailableKeepsOrder(lots, user);
    forall r | r in x.rows ensures r in lots && IsAvailable(r, user) {
      assert Lookup(lots, r.id) == Some(r);
    }
    AgesAreStrict(lots, user, all);
    AgesAreStrict(lots, user, x.rows);
    forall l | l in all && l.createdAt <= x.rows[k - 1].createdAt ensures l in x.rows {
      HeldRow(lots, x, l);
    }
    SameStart(all, x.rows, k, k);
    PrefixSlices(all, x.rows, k);
    PiecesNeedOnlyTheirRows(x.rows, all, a);
    PiecesFacts(all, a);
    LoopIsDebit(lots, user, a);
  }

  lemma {:induction false} OvertakenKeeps(lots: seq<Lot>, x: Txn, l: Lot)
    requires DistinctIds(lots) && DebitOk(lots, x) && SeenOk(lots, x.req.User(), x.seen, x.rows, [])
    requires x.left == 0 && x.req.Value() > 0 && l in lots && l.id !in x.seen
    requires forall i :: 0 <= i < |x.pieces| ==> x.pieces[i].lotId == x.rows[i].id
    ensures Lookup(ApplyPieces(lots, x.pieces), l.id) == Some(l)
  {
    LookupMember(lots, l);
    WholePieces(lots, x);
    forall p | p in x.pieces ensures p.lotId != l.id {
      var i :| 0 <= i < |x.pieces| && x.pieces[i] == p;
      assert x.rows[i] in x.rows;
    }
    ApplyFrame(lots, x.pieces, l.id);
  }

  lemma {:induction false} OutOfOrderIfOvertaken(s: State, t: nat, l: Lot)
    requires Reachable(s) && Debiting(s, t) && DistinctAges(s.db.lots, s.txns[t].req.User())
    requires 0 < |s.txns[t].pieces| <= |s.txns[t].rows|
    requires l in s.db.lots && IsAvailable(l, s.txns[t].req.User()) && l.id !in s.txns[t].seen
    requires l.createdAt <= LastTouched(s.txns[t]).createdAt
    ensures var x := s.txns[t];
      LotsAfter(s.db.lots, x) != DebitLots(s.db.lots, x.req.User(), x.req.Value())
  {
    var x, lots := s.txns[t], s.db.lots;
    AboutToCommit(s, t);
    hide Reachable;
    var m := LastTouched(x);
    assert m in x.rows && Lookup(lots, m.id) == Some(m) && m in lots;
    OvertakenKeeps(lots, x, l);
    LastIsReduced(lots, x);
    if LotsAfter(lots, x) == DebitLots(lots, x.req.User(), x.req.Value()) {
      DebitInOrder(lots, x.req.User(), x.req.Value(), l, m);
      assert false;
    }
  }

  // When no two usable lots of the user are of one age, a committing debit does to the table
  // what the debit of the whole table does, exactly when no lot that became visible after
  // its query is older than the last one it touches; then the user's queue of points loses
  // its first a points.
  lemma {:induction false} CommitIsFifoIff(s: State, t: nat)
    requires Reachable(s) && Debiting(s, t) && DistinctAges(s.db.lots, s.txns[t].req.User())
    ensures var x := s.txns[t];
      var user, a := x.req.User(), x.req.Value();
      && 0 < |x.pieces| <= |x.rows|
      && (LotsAfter(s.db.lots, x) == DebitLots(s.db.lots, user, a) <==> NoneOvertaken(s.db.lots, x))
      && (NoneOvertaken(s.db.lots, x) ==>
            0 < a <= Balance(s.db.lots, user)
            && UnitQueue(LotsAfter(s.db.lots, x), user) == UnitQueue(s.db.lots, user)[a..])
  {
    var x := s.txns[t];
    AboutToCommit(s, t);
    if NoneOvertaken(s.db.lots, x) {
      InOrderIfNoneOvertaken(s, t);
      DebitDropsUnits(s.db.lots, x.req.User(), x.req.Value());
    } else {
      var l :| l in s.db.lots && IsAvailable(l, x.req.User()) && l.id !in x.seen
               && l.createdAt <= LastTouched(x).createdAt;
      OutOfOrderIfOvertaken(s, t, l);
    }
  }

  // --- the condition can fail -----------------------------------------------------------

  lemma {:induction false} Do(s: State, a: Action) returns (after: State)
    requires Reachable(s) && Enabled(s, a)
    ensures Reachable(after) && after == Step(s, a)
  {
    Go(INIT, s, a);
    after := Step(s, a);
  }

  // A debit that has selected the one lot there is, aged 1, and is about to lock it.
  function AboutToLock(c: Request, d: Request): Txn {
    Start(d).(pc := Locking([0]), balance := c.Value(), left := d.Value(), seen := {0})
  }

  ghost predicate Pair(c: Request, d: Request) {
    && c.direction == CREDIT && !c.Keyed() && d.direction == DEBIT && !d.Keyed()
    && c.User() == d.User() && 0 < d.Value() <= c.Value()
  }

  lemma {:induction false} OneCredit(c: Request) returns (s: State)
    requires c.direction == CREDIT && !c.Keyed() && c.Value() > 0
    ensures Reachable(s) && s.db.lots == [CreditLot(c, 0, 1)] && s.txns.Keys == {0}
    ensures s.txns[0].pc.Ended? && s.txns[0].locked == {} && s.txns[0].lot.None?
  {
    Stay(INIT);
    var s0 := INIT;
    var s1 := Do(s0, Begin(0, c));
    var s2 := Do(s1, ReadBalance(0));
    CreditCommits(INIT, s2, 0, 0, 1);
    s := AfterCredit(s2, 0, 0, 1);
  }

  lemma {:induction false} DebitSelects(c: Request, d: Request, s: State) returns (after: State)
    requires Pair(c, d) && Reachable(s) && s.db.lots == [CreditLot(c, 0, 1)] && s.txns.Keys == {0}
    ensures Reachable(after) && after == s.(txns := s.txns[1 := AboutToLock(c, d)])
  {
    hide Reachable;
    var s1 := Do(s, Begin(1, d));
    assert s.db.lots[1..] == [];
    assert Balance(s.db.lots, d.User()) == c.Value();
    var s2 := Do(s1, ReadBalance(1));
    assert Selects(s.db.lots, d.User(), [0]);
    assert LotIds(s.db.lots) == {0} by { assert s.db.lots[0].id in LotIds(s.db.lots); }
    after := Do(s2, Select(1, [0]));
    assert after.txns[1] == AboutToLock(c, d);
  }

  lemma {:induction false} OlderCredit(c: Request, d: Request, s: State) returns (after: State)
    requires Pair(c, d) && Reachable(s) && s.db.lots == [CreditLot(c, 0, 1)]
    requires s.txns.Keys == {0, 1} && s.txns[0].lot.None? && s.txns[1] == AboutToLock(c, d)
    requires s.txns[0].locked == {}
    ensures Reachable(after) && after.db.lots == [CreditLot(c, 1, 0), CreditLot(c, 0, 1)]
    ensures after.txns.Keys == {0, 1, 2} && after.txns[1] == AboutToLock(c, d)
    ensures after.txns[0].locked == {} && after.txns[2].locked == {}
  {
    hide Reachable, Leads;
    var s1 := Do(s, Begin(2, c));
    var s2 := Do(s1, ReadBalance(2));
    assert Leads(INIT, s2) by { assert Reachable(s2); Unfold(s2); }
    CreditCommits(INIT, s2, 2, 1, 0);
    after := AfterCredit(s2, 2, 1, 0);
    Fold(after);
  }

  lemma Unfold(s: State)
    requires Reachable(s)
    ensures Leads(INIT, s)
  {
  }

  lemma Fold(s: State)
    requires Leads(INIT, s)
    ensures Reachable(s)
  {
  }

  lemma {:induction false} DebitFinishes(c: Request, d: Request, s: State) returns (after: State)
    requires Pair(c, d) && Reachable(s) && s.db.lots == [CreditLot(c, 1, 0), CreditLot(c, 0, 1)]
    requires s.txns.Keys == {0, 1, 2} && s.txns[1] == AboutToLock(c, d)
    requires s.txns[0].locked == {} && s.txns[2].locked == {}
    ensures Reachable(after) && Debiting(after, 1) && after.db == s.db
    ensures after.txns[1].req == d && after.txns[1].seen == {0}
    ensures after.txns[1].rows == [CreditLot(c, 0, 1)] && |after.txns[1].pieces| == 1
  {
    hide Reachable;
    assert s.db.lots[1..] == [CreditLot(c, 0, 1)];
    assert Lookup(s.db.lots, 0) == Some(CreditLot(c, 0, 1));
    var s1 := Do(s, LockNext(1));
    assert s1.txns[1].pc == Locking([]);
    var s2 := Do(s1, LockNext(1));
    assert s2.txns[1].rows == [CreditLot(c, 0, 1)];
    var s3 := Do(s2, Turn(1));
    var s4 := Do(s3, EndLoop(1));
    after := Do(s4, InsertKey(1));
  }

  // It does fail: a credit that commits after the debit's query, with an earlier creation
  // time than the lot the debit holds, is passed over. For every amount and user.
  lemma {:induction false} OlderLotPassedOver(c: Request, d: Request) returns (s: State)
    requires Pair(c, d)
    ensures Reachable(s) && Debiting(s, 1) && s.txns[1].req == d
    ensures LotsAfter(s.db.lots, s.txns[1]) != DebitLots(s.db.lots, d.User(), d.Value())
    ensures DistinctAges(s.db.lots, d.User())
  {
    hide Reachable;
    s := OneCredit(c);
    s := DebitSelects(c, d, s);
    s := OlderCredit(c, d, s);
    s := DebitFinishes(c, d, s);
    CommitIsFifoIff(s, 1);
    var lot := CreditLot(c, 1, 0);
    assert s.db.lots[0] == lot;
    assert lot in s.db.lots && IsAvailable(lot, d.User()) && lot.id !in s.txns[1].seen;
  }
}
