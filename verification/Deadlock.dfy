/** Who waits for whom. Reserves, settles and reapers never form a cycle of lock
    waits; a key update and a reserve can. */
module Deadlock {
  import opened Basics
  import opened Ledger
  import opened Transactions
  import opened Refinement

  /** The lock that a transaction's next statement needs, where it may have to
      wait for one. */
  datatype Lock = RowOf(id: ResId) | BalanceOf(key: KeyId) | KeyOf(key: KeyId) | NoLock

  ghost function Least(ks: set<KeyId>): (k: KeyId)
    requires ks != {}
    ensures k in ks && forall j :: j in ks ==> k <= j
    decreases |ks|
  {
    var k :| k in ks;
    if ks == {k} then k
    else
      assert ks == (ks - {k}) + {k};
      assert ks - {k} != {};
      var m := Least(ks - {k});
      if k < m then k else m
  }

  ghost function Wanted(tx: Tx): Lock {
    match tx
    case ReserveFound(_, k, _) => BalanceOf(k)
    case ReserveUpdated(_, k, _, _) => KeyOf(k)
    case SettleFound(id, _) => RowOf(id)
    case SettleMarked(_, _, prior, _) => BalanceOf(prior.key)
    case ReapLocking(_, _, totals, locked) =>
      if totals.Keys - locked == {} then NoLock else BalanceOf(Least(totals.Keys - locked))
    case UpdateBegun(k, _) => KeyOf(k)
    case UpdateLocked(k, _) => BalanceOf(k)
    case _ => NoLock
  }

  /** A key row locked FOR UPDATE keeps an insert waiting; one locked FOR KEY SHARE
      keeps only another update waiting. */
  ghost predicate Denies(holder: Tx, wanting: Tx) {
    match Wanted(wanting)
    case RowOf(id) => id in RowLocks(holder)
    case BalanceOf(k) => k in BudgetLocks(holder)
    case KeyOf(k) => k in KeyLocks(holder) || (wanting.UpdateBegun? && k in KeyShares(holder))
    case NoLock => false
  }

  /** The next statement of `t` needs a lock that `u` holds. */
  ghost predicate WaitsFor(s: Sys, t: TxId, u: TxId) {
    t in s.txs && u in s.txs && t != u && Denies(s.txs[u], s.txs[t])
  }

  ghost predicate Blocked(s: Sys, t: TxId) {
    exists u :: WaitsFor(s, t, u)
  }

  // ----- ranks -------------------------------------------------------------

  /** Transactions that wait for a reservation or key row, then those that wait
      for the balance row of a key, in key order, then an insert that waits for
      the key row its foreign key names. */
  datatype Rank = Rank(phase: nat, key: nat)

  predicate Below(a: Rank, b: Rank) {
    a.phase < b.phase || (a.phase == b.phase && a.key < b.key)
  }

  ghost function RankOf(tx: Tx): Rank {
    if tx.ReserveUpdated? then Rank(2, 0)
    else if Wanted(tx).BalanceOf? then Rank(1, Wanted(tx).key)
    else Rank(0, 0)
  }

  /** An insert that waits for a key row which an update of that key has locked. */
  ghost predicate InsertBehindUpdate(s: Sys, t: TxId, u: TxId) {
    t in s.txs && u in s.txs && s.txs[t].ReserveUpdated? && s.txs[u].UpdateLocked?
  }

  /** The reaper's own order: the rows it still has to lock come after those it
      holds. */
  ghost predicate KeyOrdered(tx: Tx) {
    tx.ReapLocking? ==> forall j, k :: j in tx.locked && k in tx.totals.Keys - tx.locked ==> j < k
  }

  ghost predicate InKeyOrder(s: Sys) {
    forall t :: t in s.txs ==> KeyOrdered(s.txs[t])
  }

  /** Nobody who holds a balance row waits, but a reaper for a later one and a
      reserve at its insert. */
  lemma BalanceHolders(tx: Tx, k: KeyId)
    requires KeyOrdered(tx) && k in BudgetLocks(tx) && Wanted(tx) != NoLock
    ensures tx.ReserveUpdated? || (Wanted(tx).BalanceOf? && k < Wanted(tx).key)
  {
  }

  lemma RowHolders(tx: Tx, id: ResId)
    requires id in RowLocks(tx) && Wanted(tx) != NoLock
    ensures Wanted(tx).BalanceOf?
  {
  }

  lemma KeyHolders(tx: Tx, k: KeyId)
    requires (k in KeyLocks(tx) || k in KeyShares(tx)) && Wanted(tx) != NoLock
    ensures tx.UpdateLocked? && Wanted(tx).BalanceOf?
  {
  }

  lemma RankRises(a: Tx, b: Tx)
    requires KeyOrdered(b) && Denies(b, a) && Wanted(b) != NoLock
    ensures Below(RankOf(a), RankOf(b)) || (a.ReserveUpdated? && b.UpdateLocked?)
  {
    match Wanted(a)
    case RowOf(id) => RowHolders(b, id);
    case BalanceOf(k) => BalanceHolders(b, k);
    case KeyOf(k) => KeyHolders(b, k);
  }

  lemma ExecuteKeepsOrder(s: Sys, t: TxId, tx: Tx, stmt: Statement)
    requires KeyOrdered(tx) && CanExecute(s, t, tx, stmt)
    ensures KeyOrdered(Executed(s, t, tx, stmt))
  {
    if stmt.LockBudget? {
      assert forall k :: k in tx.totals.Keys - (tx.locked + {stmt.key}) ==> k in tx.totals.Keys - tx.locked;
    }
  }

  lemma StepKeepsOrder(s: Sys, e: Action)
    requires SysInv(s) && InKeyOrder(s) && Allowed(s, e)
    ensures InKeyOrder(Act(s, e))
  {
    if e.Execute? {
      ExecuteKeepsOrder(s, e.t, s.txs[e.t], e.stmt);
    }
  }

  lemma {:induction false} RunKeepsOrder(s: Sys, es: seq<Action>)
    requires SysInv(s) && InKeyOrder(s) && CanPlay(s, es)
    ensures SysInv(Play(s, es)) && InKeyOrder(Play(s, es))
    decreases |es|
  {
    if es != [] {
      StepKeepsInv(s, es[0]);
      StepKeepsOrder(s, es[0]);
      RunKeepsOrder(Act(s, es[0]), es[1..]);
    }
  }

  // ----- no cycle ----------------------------------------------------------

  ghost predicate WaitPath(s: Sys, p: seq<TxId>) {
    forall i :: 0 <= i < |p| - 1 ==> WaitsFor(s, p[i], p[i + 1])
  }

  lemma {:induction false} RankRisesAlong(s: Sys, p: seq<TxId>, n: nat)
    requires InKeyOrder(s) && WaitPath(s, p) && 1 <= n < |p| - 1
    requires forall i :: 0 <= i < |p| - 1 ==> !InsertBehindUpdate(s, p[i], p[i + 1])
    ensures p[0] in s.txs && p[n] in s.txs && Below(RankOf(s.txs[p[0]]), RankOf(s.txs[p[n]]))
  {
    assert WaitsFor(s, p[n - 1], p[n]) && WaitsFor(s, p[n], p[n + 1]);
    RankRises(s.txs[p[n - 1]], s.txs[p[n]]);
    if n > 1 {
      RankRisesAlong(s, p, n - 1);
    }
  }

  /** Every cycle of waits goes through an insert held up by a key update. */
  lemma CyclesNeedAnUpdate(s: Sys, p: seq<TxId>)
    requires InKeyOrder(s) && WaitPath(s, p) && |p| >= 2 && p[0] == p[|p| - 1]
    ensures exists i :: 0 <= i < |p| - 1 && InsertBehindUpdate(s, p[i], p[i + 1])
  {
    if forall i :: 0 <= i < |p| - 1 ==> !InsertBehindUpdate(s, p[i], p[i + 1]) {
      var last := |p| - 2;
      assert WaitsFor(s, p[last], p[last + 1]) && WaitsFor(s, p[0], p[1]);
      RankRises(s.txs[p[last]], s.txs[p[0]]);
      if last > 0 {
        RankRisesAlong(s, p, last);
      }
      assert false;
    }
  }

  /** However reserves, settles and reapers interleave, they never deadlock. */
  lemma NoDeadlockWithoutUpdates(s: Sys, es: seq<Action>, p: seq<TxId>)
    requires SysInv(s) && s.txs == map[] && CanPlay(s, es)
    requires forall t :: t in Play(s, es).txs ==> !Play(s, es).txs[t].UpdateLocked?
    requires WaitPath(Play(s, es), p) && |p| >= 2
    ensures p[0] != p[|p| - 1]
  {
    RunKeepsOrder(s, es);
    if p[0] == p[|p| - 1] {
      CyclesNeedAnUpdate(Play(s, es), p);
    }
  }

  /** With a key update they can: wherever a reserve has written the balance row
      of a key whose row an update of that key has locked, each waits for the
      other. Both get there by statements that nothing forbids. */
  lemma UpdateAndReserveDeadlock(s: Sys, t: TxId, u: TxId)
    requires SysInv(s) && t in s.txs && u in s.txs && t != u
    requires s.txs[t].ReserveFound? && CanExecute(s, t, s.txs[t], UpdateBudget)
    requires s.txs[u].UpdateBegun? && s.txs[u].key == s.txs[t].key && CanExecute(s, u, s.txs[u], LockKey)
    ensures CanPlay(s, [Execute(t, UpdateBudget), Execute(u, LockKey)])
    ensures var s' := Play(s, [Execute(t, UpdateBudget), Execute(u, LockKey)]);
      WaitsFor(s', t, u) && WaitsFor(s', u, t)
  {
    hide *;
    var e1, e2 := Execute(t, UpdateBudget), Execute(u, LockKey);
    LockKeyAfterUpdate(s, t, u);
    ExecutedIs(s, t, UpdateBudget);
    var s1 := Act(s, e1);
    ExecutedIs(s1, u, LockKey);
    NoneToPlay(Act(s1, e2));
    Chain(s1, e2, []);
    Chain(s, e1, [e2] + []);
    assert [e1, e2] == [e1] + ([e2] + []);
    EachWaits(Act(s1, e2), t, u);
  }

  /** A whole run of it, from an empty system. */
  lemma DeadlockRun() returns (es: seq<Action>)
    ensures CanPlay(Nobody(), es)
    ensures var s := Play(Nobody(), es);
      WaitsFor(s, 0, 1) && WaitsFor(s, 1, 0)
  {
    hide *;
    var begin, s := Begin(1, UpdateBegun(0, None)), BothBegun();
    RoomForOne();
    FoundFromNothing([]);
    UpdateBegins();
    StepKeepsInv(OneFound(), begin);
    BothGoOn();
    UpdateAndReserveDeadlock(s, 0, 1);
    var last := [Execute(0, UpdateBudget), Execute(1, LockKey)];
    Chain(OneFound(), begin, last);
    FoundFromNothing([begin] + last);
    es := FIND + ([begin] + last);
  }

  /** The reserve has found its row and a limit change of the same key has begun. */
  function BothBegun(): Sys {
    OneFound().(txs := map[0 := ReserveFound(ASK, 0, ROW), 1 := UpdateBegun(0, None)])
  }

  lemma UpdateBegins()
    ensures
      var e := Begin(1, UpdateBegun(0, None));
      Allowed(OneFound(), e) && Act(OneFound(), e) == BothBegun()
  {
    assert Act(OneFound(), Begin(1, UpdateBegun(0, None))).txs == BothBegun().txs;
  }

  lemma BothGoOn()
    ensures
      var s := BothBegun();
      && s.txs.Keys == {0, 1} && s.txs[0] == ReserveFound(ASK, 0, ROW) && s.txs[1] == UpdateBegun(0, None)
      && CanExecute(s, 0, s.txs[0], UpdateBudget) && CanExecute(s, 1, s.txs[1], LockKey)
  {
  }

  /** Transactions are in a cycle of waits exactly when a reserve has written the
      balance row of a key whose row a limit change has locked. */
  lemma CyclesExactly(s: Sys)
    requires InKeyOrder(s)
    ensures (exists p: seq<TxId> :: WaitPath(s, p) && |p| >= 2 && p[0] == p[|p| - 1])
       <==> (exists t: TxId, u: TxId :: HeldUp(s, t, u))
  {
    if p: seq<TxId> :| WaitPath(s, p) && |p| >= 2 && p[0] == p[|p| - 1] {
      CyclesNeedAnUpdate(s, p);
      var i :| 0 <= i < |p| - 1 && InsertBehindUpdate(s, p[i], p[i + 1]);
      assert WaitsFor(s, p[i], p[i + 1]);
      assert HeldUp(s, p[i], p[i + 1]);
    }
    if t: TxId, u: TxId :| HeldUp(s, t, u) {
      EachWaits(s, t, u);
      var p := [t, u, t];
      assert WaitPath(s, p) && p[0] == p[|p| - 1];
    }
  }

  ghost predicate HeldUp(s: Sys, t: TxId, u: TxId) {
    InsertBehindUpdate(s, t, u) && s.txs[t].key == s.txs[u].key
  }

  lemma ExecutedIs(s: Sys, t: TxId, stmt: Statement)
    requires t in s.txs && CanExecute(s, t, s.txs[t], stmt)
    ensures Allowed(s, Execute(t, stmt))
    ensures Act(s, Execute(t, stmt)) == s.(txs := s.txs[t := Executed(s, t, s.txs[t], stmt)])
    ensures var tx, tx' := s.txs[t], Executed(s, t, s.txs[t], stmt);
      && (stmt == UpdateBudget && tx.ReserveFound? ==> tx'.ReserveUpdated? && tx'.key == tx.key)
      && (stmt == LockKey && tx.UpdateBegun? ==> tx'.UpdateLocked? && tx'.key == tx.key)
  {
  }

  lemma NoneToPlay(s: Sys)
    ensures CanPlay(s, []) && Play(s, []) == s
  {
  }

  lemma LockKeyAfterUpdate(s: Sys, t: TxId, u: TxId)
    requires t in s.txs && u in s.txs && t != u
    requires CanExecute(s, t, s.txs[t], UpdateBudget) && CanExecute(s, u, s.txs[u], LockKey)
    ensures CanExecute(s.(txs := s.txs[t := Executed(s, t, s.txs[t], UpdateBudget)]), u, s.txs[u], LockKey)
  {
    hide Admits, Reserved;
  }

  lemma EachWaits(s: Sys, t: TxId, u: TxId)
    requires t in s.txs && u in s.txs && t != u
    requires s.txs[t].ReserveUpdated? && s.txs[u].UpdateLocked? && s.txs[u].key == s.txs[t].key
    ensures WaitsFor(s, t, u) && WaitsFor(s, u, t)
  {
  }

  // ----- progress ----------------------------------------------------------

  ghost predicate Moves(s: Sys, t: TxId) {
    exists e :: Allowed(s, e) && Of(e, t) && !e.Abort? && !e.Begin?
  }

  lemma MovesBy(s: Sys, e: Action)
    requires Allowed(s, e) && !e.Administer? && !e.Abort? && !e.Begin?
    ensures Moves(s, e.t)
  {
    hide Allowed;
    assert Of(e, e.t);
  }

  lemma ExecuteMoves(s: Sys, t: TxId, stmt: Statement)
    requires t in s.txs && CanExecute(s, t, s.txs[t], stmt)
    ensures Moves(s, t)
  {
    hide CanExecute, Moves;
    MovesBy(s, Execute(t, stmt));
  }

  lemma RefuseMoves(s: Sys, t: TxId)
    requires t in s.txs && Refused(s, t, s.txs[t])
    ensures Moves(s, t)
  {
    hide Refused, Moves;
    MovesBy(s, Refuse(t));
  }

  lemma CommitMoves(s: Sys, t: TxId)
    requires t in s.txs && Finished(s.txs[t])
    ensures Moves(s, t)
  {
    hide Finished, Moves;
    MovesBy(s, Commit(t));
  }

  ghost function Unused(log: set<ResId>): (id: ResId)
    ensures id !in log && forall j :: j in log ==> j < id
  {
    if log == {} then 0
    else
      var x :| x in log;
      var m := Unused(log - {x});
      assert forall j :: j in log ==> j == x || j in log - {x};
      if x < m then m else x + 1
  }

  ghost function AllRows(s: Sys, ts: set<TxId>): set<ResId>
    requires ts <= s.txs.Keys
    ensures forall t :: t in ts ==> RowLocks(s.txs[t]) <= AllRows(s, ts)
  {
    if ts == {} then {}
    else
      var t :| t in ts;
      assert ts == (ts - {t}) + {t};
      RowLocks(s.txs[t]) + AllRows(s, ts - {t})
  }

  /** Somebody who is not blocked finds the lock it wants free. */
  lemma UnblockedFree(s: Sys, t: TxId)
    requires t in s.txs && !Blocked(s, t)
    ensures match Wanted(s.txs[t])
            case RowOf(id) => RowFree(s, t, id)
            case BalanceOf(k) => BudgetFree(s, t, k)
            case KeyOf(k) => KeyUnlocked(s, t, k) && (s.txs[t].UpdateBegun? ==> KeyUnshared(s, t, k))
            case NoLock => true
  {
    hide Wanted, BudgetLocks, RowLocks, KeyLocks, KeyShares;
    assert forall u :: u in s.txs && u != t ==> !WaitsFor(s, t, u);
  }

  lemma InsertMoves(s: Sys, t: TxId)
    requires SysInv(s) && t in s.txs && s.txs[t].ReserveUpdated? && !Blocked(s, t)
    ensures Moves(s, t)
  {
    hide SysInv, Moves, Blocked;
    InvAt(s, t);
    var id := Unused(s.db.log.Keys + AllRows(s, s.txs.Keys));
    UnblockedFree(s, t);
    ExecuteMoves(s, t, InsertReservation(id));
  }

  lemma LockingMoves(s: Sys, t: TxId)
    requires SysInv(s) && t in s.txs && !Blocked(s, t) && s.txs[t].ReapLocking?
    ensures Moves(s, t)
  {
    hide SysInv, Moves, Blocked, ClaimsHeld, Totals, ExpiredRows, CanExecute;
    InvAt(s, t);
    var tx := s.txs[t];
    if tx.locked == tx.totals.Keys {
      HeldAreThere(s.db, tx.at, tx.claims);
      MayExpire(s, t);
      ExecuteMoves(s, t, ExpireClaims);
    } else {
      SomeMissing(tx.locked, tx.totals.Keys);
      var k := Least(tx.totals.Keys - tx.locked);
      UnblockedFree(s, t);
      MayLock(s, t, k);
      ExecuteMoves(s, t, LockBudget(k));
    }
  }

  lemma MayExpire(s: Sys, t: TxId)
    requires t in s.txs && s.txs[t].ReapLocking? && s.txs[t].locked == s.txs[t].totals.Keys
    requires forall id :: id in s.txs[t].claims ==> id in s.db.log
    ensures CanExecute(s, t, s.txs[t], ExpireClaims)
  {
  }

  lemma MayLock(s: Sys, t: TxId, k: KeyId)
    requires t in s.txs && s.txs[t].ReapLocking? && BudgetFree(s, t, k)
    requires k in s.txs[t].totals.Keys - s.txs[t].locked
    requires forall j :: j in s.txs[t].totals.Keys - s.txs[t].locked ==> k <= j
    ensures CanExecute(s, t, s.txs[t], LockBudget(k))
  {
    hide BudgetFree;
  }

  lemma SomeMissing<K>(part: set<K>, whole: set<K>)
    requires part <= whole && part != whole
    ensures exists k :: k in whole - part
  {
    assert !(whole <= part);
    var k :| k in whole && k !in part;
    assert k in whole - part;
  }

  lemma ReleasingMoves(s: Sys, t: TxId)
    requires SysInv(s) && t in s.txs && s.txs[t].ReapReleasing?
    ensures Moves(s, t)
  {
    hide SysInv, Moves, ClaimsHeld, Totals, ExpiredRows, NextKey;
    InvAt(s, t);
    var tx := s.txs[t];
    if tx.rows.Keys == tx.totals.Keys {
      CommitMoves(s, t);
    } else {
      SomeMissing(tx.rows.Keys, tx.totals.Keys);
      var k :| k in tx.totals.Keys - tx.rows.Keys;
      ExecuteMoves(s, t, ReleaseBudget(k));
    }
  }

  lemma ClaimingMoves(s: Sys, t: TxId)
    requires SysInv(s) && t in s.txs && s.txs[t].ReapClaiming?
    ensures Moves(s, t)
  {
    hide SysInv, Moves;
    InvAt(s, t);
    ExecuteMoves(s, t, EndClaims);
  }

  lemma ReserveMoves(s: Sys, t: TxId)
    requires SysInv(s) && t in s.txs && !Blocked(s, t) && (s.txs[t].ReserveBegun? || s.txs[t].ReserveFound?)
    ensures Moves(s, t)
  {
    hide SysInv, Moves, Blocked, Allows, Admits, BudgetFree;
    InvAt(s, t);
    var tx := s.txs[t];
    if tx.ReserveBegun? {
      if k :| k in s.db.keys && Matches(s.db, tx.ask, k) {
        ExecuteMoves(s, t, FindBudget(k));
      } else {
        RefuseMoves(s, t);
      }
    } else {
      UnblockedFree(s, t);
      if Admits(s.db.budgets[tx.key], tx.ask.estimate, tx.ask.now) {
        ExecuteMoves(s, t, UpdateBudget);
      } else {
        RefuseMoves(s, t);
      }
    }
  }

  lemma SettleMoves(s: Sys, t: TxId)
    requires SysInv(s) && t in s.txs && !Blocked(s, t)
    requires s.txs[t].SettleBegun? || s.txs[t].SettleFound? || s.txs[t].SettleMarked?
    ensures Moves(s, t)
  {
    hide SysInv, Moves, Blocked, RowFree, BudgetFree, Open, Closed, Settles;
    InvAt(s, t);
    var tx := s.txs[t];
    UnblockedFree(s, t);
    var stmt :=
      if tx.SettleMarked? then ChargeBudget
      else if !Settles(s.db, tx.id) then MissReservation
      else if tx.SettleBegun? then FindReservation else MarkReservation;
    ExecuteMoves(s, t, stmt);
  }

  lemma UpdateMoves(s: Sys, t: TxId)
    requires SysInv(s) && t in s.txs && !Blocked(s, t) && (s.txs[t].UpdateBegun? || s.txs[t].UpdateLocked?)
    ensures Moves(s, t)
  {
    hide SysInv, Moves, Blocked, BudgetFree, KeyUnlocked, KeyUnshared;
    InvAt(s, t);
    var tx := s.txs[t];
    UnblockedFree(s, t);
    if tx.UpdateLocked? {
      ExecuteMoves(s, t, WriteLimit);
    } else if tx.key in s.db.keys {
      ExecuteMoves(s, t, LockKey);
    } else {
      RefuseMoves(s, t);
    }
  }

  /** A transaction that waits for nobody can go on. */
  lemma UnblockedMoves(s: Sys, t: TxId)
    requires SysInv(s) && t in s.txs && !Blocked(s, t)
    ensures Moves(s, t)
  {
    hide SysInv, Moves, Blocked;
    match s.txs[t]
    case ReserveBegun(_) => ReserveMoves(s, t);
    case ReserveFound(_, _, _) => ReserveMoves(s, t);
    case ReserveUpdated(_, _, _, _) => InsertMoves(s, t);
    case SettleBegun(_, _) => SettleMoves(s, t);
    case SettleFound(_, _) => SettleMoves(s, t);
    case SettleMarked(_, _, _, _) => SettleMoves(s, t);
    case ReapClaiming(_, _, _) => ClaimingMoves(s, t);
    case ReapLocking(_, _, _, _) => LockingMoves(s, t);
    case ReapReleasing(_, _, _, _, _) => ReleasingMoves(s, t);
    case UpdateBegun(_, _) => UpdateMoves(s, t);
    case UpdateLocked(_, _) => UpdateMoves(s, t);
    case _ => CommitMoves(s, t);
  }

  lemma {:induction false} TopRank(s: Sys, ts: set<TxId>) returns (t: TxId)
    requires ts != {} && ts <= s.txs.Keys
    ensures t in ts && forall u :: u in ts ==> !Below(RankOf(s.txs[t]), RankOf(s.txs[u]))
    decreases |ts|
  {
    t :| t in ts;
    if ts != {t} {
      assert ts - {t} != {};
      var m := TopRank(s, ts - {t});
      if Below(RankOf(s.txs[t]), RankOf(s.txs[m])) {
        t := m;
      }
    }
  }

  /** As long as transactions are in progress and no reserve is held up by a limit
      change of its key, at least one can take its next statement. */
  lemma SomeoneMoves(s: Sys) returns (t: TxId)
    requires SysInv(s) && InKeyOrder(s) && s.txs != map[]
    requires forall u, v :: !HeldUp(s, u, v)
    ensures t in s.txs && Moves(s, t)
  {
    hide SysInv, InKeyOrder, Moves, RankOf, Below, Denies;
    assert s.txs.Keys != {};
    t := TopRank(s, s.txs.Keys);
    if Blocked(s, t) {
      var u :| WaitsFor(s, t, u);
      OneAboveIsFree(s, t, u);
      t := u;
    }
    UnblockedMoves(s, t);
  }

  /** Nobody that a transaction of the highest rank waits for is blocked. */
  lemma OneAboveIsFree(s: Sys, t: TxId, u: TxId)
    requires InKeyOrder(s) && WaitsFor(s, t, u) && !HeldUp(s, t, u)
    requires !Below(RankOf(s.txs[t]), RankOf(s.txs[u]))
    ensures u in s.txs && !Blocked(s, u)
  {
    hide Below, RankOf, KeyOrdered;
    if v :| WaitsFor(s, u, v) {
      RankRises(s.txs[t], s.txs[u]);
      assert false;
    }
  }
}
