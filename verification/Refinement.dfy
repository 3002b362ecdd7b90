/** Every interleaving of the budget transactions is a run of the atomic ledger,
    in commit order. */
module Refinement {
  import opened Basics
  import opened Ledger
  import opened Transactions
  import LedgerRuns
  import LedgerLimits

  // ----- what the locks protect --------------------------------------------

  ghost predicate ClaimsHeld(db: Db, at: Instant, claims: seq<ResId>) {
    && Distinct(claims)
    && forall id :: id in claims ==> id in db.log && db.log[id].state == Pending && db.log[id].expiresAt < at
  }

  /** The credential and the model were allowed by a version of the key's own row. */
  predicate Authentic(db: Db, k: KeyId, seen: KeyRow, ask: Ask) {
    k in db.keys && VersionOf(seen, db.keys[k]) && Allows(seen, ask.hash, ask.model)
  }

  /** What a transaction has seen and written agrees with the committed rows
      under its locks. */
  ghost predicate Coherent(db: Db, tx: Tx) {
    match tx
    case ReserveFound(ask, k, seen) => k in db.budgets && Authentic(db, k, seen, ask)
    case ReserveUpdated(ask, k, seen, row) =>
      && k in db.budgets && Authentic(db, k, seen, ask) && Admits(db.budgets[k], ask.estimate, ask.now)
      && row == Reserved(db.budgets[k], ask.estimate, ask.now)
    case ReserveInserted(ask, k, seen, row, id, entry) =>
      && k in db.budgets && Authentic(db, k, seen, ask) && Admits(db.budgets[k], ask.estimate, ask.now)
      && row == Reserved(db.budgets[k], ask.estimate, ask.now)
      && id !in db.log && entry == NewReservation(k, row.window, ask.estimate, ask.expiresAt)
    case SettleFound(id, _) => id in db.log
    case SettleMarked(id, cost, prior, entry) =>
      && id in db.log && db.log[id] == prior && Open(prior) && entry == Closed(prior, cost)
      && prior.key in db.budgets
    case SettleApplied(id, cost, prior, entry, row) =>
      && id in db.log && db.log[id] == prior && Open(prior) && entry == Closed(prior, cost)
      && prior.key in db.budgets && row == Charged(db.budgets[prior.key], prior, cost)
    case ReapClaiming(at, batch, claims) => ClaimsHeld(db, at, claims) && |claims| <= batch
    case ReapLocking(at, claims, totals, locked) =>
      ClaimsHeld(db, at, claims) && totals == Totals(db.log, claims) && locked <= totals.Keys
    case ReapReleasing(at, claims, totals, entries, rows) =>
      && ClaimsHeld(db, at, claims) && totals == Totals(db.log, claims)
      && entries == ExpiredRows(db.log, claims)
      && rows.Keys <= totals.Keys <= db.budgets.Keys
      && (forall k :: k in rows ==>
            rows[k] == db.budgets[k].(reserved := db.budgets[k].reserved - totals[k]))
    case UpdateLocked(k, _) => k in db.budgets
    case UpdateApplied(k, limit, row) => k in db.budgets && row == db.budgets[k].(limit := limit)
    case _ => true
  }

  /** The foreign keys of the schema. */
  ghost predicate Linked(db: Db) {
    && (forall id :: id in db.log ==> db.log[id].key in db.budgets)
    && db.keys.Keys == db.budgets.Keys
  }

  ghost predicate Apart(a: Tx, b: Tx) {
    BudgetLocks(a) !! BudgetLocks(b) && RowLocks(a) !! RowLocks(b)
  }

  ghost predicate SysInv(s: Sys) {
    && Linked(s.db)
    && (forall t :: t in s.txs ==> Coherent(s.db, s.txs[t]))
    && (forall t, u :: t in s.txs && u in s.txs && t != u ==> Apart(s.txs[t], s.txs[u]))
  }

  // ----- frames ------------------------------------------------------------

  /** Two committed states that differ only in rows nobody here has locked. */
  ghost predicate SameUnder(db: Db, db': Db, tx: Tx) {
    && db.budgets.Keys <= db'.budgets.Keys && db.log.Keys <= db'.log.Keys
    && (forall k :: k in db.keys ==> k in db'.keys && VersionOf(db.keys[k], db'.keys[k]))
    && (forall k :: k in BudgetLocks(tx) && k in db.budgets ==> db'.budgets[k] == db.budgets[k])
    && (forall id :: id in RowLocks(tx) ==> (id in db.log <==> id in db'.log))
    && (forall id :: id in RowLocks(tx) && id in db.log ==> db'.log[id] == db.log[id])
  }

  lemma TotalsAgree(log: map<ResId, Reservation>, log': map<ResId, Reservation>, claims: seq<ResId>)
    requires forall id :: id in claims ==> id in log && id in log' && log[id] == log'[id]
    ensures Totals(log, claims) == Totals(log', claims)
  {
    forall k
      ensures Claimed(log, claims, k) == Claimed(log', claims, k)
    {
      LedgerLimits.ClaimedAgrees(log, log', claims, k);
    }
  }

  lemma ClaimsFrame(db: Db, db': Db, at: Instant, claims: seq<ResId>)
    requires ClaimsHeld(db, at, claims)
    requires forall id :: id in claims ==> id in db'.log && db'.log[id] == db.log[id]
    ensures ClaimsHeld(db', at, claims)
    ensures Totals(db'.log, claims) == Totals(db.log, claims)
    ensures ExpiredRows(db'.log, claims) == ExpiredRows(db.log, claims)
  {
    TotalsAgree(db.log, db'.log, claims);
  }

  lemma ClaimsUnderLocks(db: Db, db': Db, tx: Tx)
    requires tx.ReapClaiming? || tx.ReapLocking? || tx.ReapReleasing?
    requires ClaimsHeld(db, tx.at, tx.claims) && SameUnder(db, db', tx)
    ensures forall id :: id in tx.claims ==> id in db'.log && db'.log[id] == db.log[id]
  {
    assert forall id :: id in tx.claims ==> id in RowLocks(tx);
  }

  lemma ReapFrameOf(db: Db, db': Db, tx: Tx)
    requires tx.ReapClaiming? || tx.ReapLocking? || tx.ReapReleasing?
    requires Coherent(db, tx) && ClaimsHeld(db', tx.at, tx.claims)
    requires Totals(db.log, tx.claims) == Totals(db'.log, tx.claims)
    requires ExpiredRows(db.log, tx.claims) == ExpiredRows(db'.log, tx.claims)
    requires db.budgets.Keys <= db'.budgets.Keys
    requires forall k :: k in BudgetLocks(tx) && k in db.budgets ==> db'.budgets[k] == db.budgets[k]
    ensures Coherent(db', tx)
  {
    hide ClaimsHeld, Totals, ExpiredRows, RowLocks;
  }

  lemma ReapFrame(db: Db, db': Db, tx: Tx)
    requires tx.ReapClaiming? || tx.ReapLocking? || tx.ReapReleasing?
    requires Coherent(db, tx) && SameUnder(db, db', tx)
    ensures Coherent(db', tx)
  {
    ClaimsUnderLocks(db, db', tx);
    ClaimsFrame(db, db', tx.at, tx.claims);
    ReapFrameOf(db, db', tx);
  }

  lemma CoherentFrame(db: Db, db': Db, tx: Tx)
    requires Coherent(db, tx) && SameUnder(db, db', tx)
    ensures Coherent(db', tx)
  {
    if tx.ReapClaiming? || tx.ReapLocking? || tx.ReapReleasing? {
      ReapFrame(db, db', tx);
    }
  }

  // ----- statements --------------------------------------------------------

  predicate OfReaper(stmt: Statement) {
    stmt.Claim? || stmt.EndClaims? || stmt.LockBudget? || stmt.ExpireClaims? || stmt.ReleaseBudget?
  }

  lemma TotalsOfLinked(db: Db, claims: seq<ResId>)
    requires Linked(db) && forall id :: id in claims ==> id in db.log
    ensures Totals(db.log, claims).Keys <= db.budgets.Keys
  {
    forall k | k in Totals(db.log, claims)
      ensures k in db.budgets
    {
      var id :| id in claims && db.log[id].key == k;
    }
  }

  lemma ClaimCoherent(s: Sys, t: TxId, id: ResId)
    requires SysInv(s) && t in s.txs && CanExecute(s, t, s.txs[t], Claim(id))
    ensures Coherent(s.db, Executed(s, t, s.txs[t], Claim(id)))
  {
    var tx := s.txs[t];
    assert Coherent(s.db, tx);
    var claims := tx.claims + [id];
    assert forall i :: 0 <= i < |tx.claims| ==> tx.claims[i] in tx.claims;
    assert Distinct(claims);
    assert ClaimsHeld(s.db, tx.at, claims);
  }

  lemma SweepingCoherent(s: Sys, t: TxId, stmt: Statement)
    requires SysInv(s) && t in s.txs && (stmt.EndClaims? || stmt.LockBudget? || stmt.ExpireClaims?)
    requires CanExecute(s, t, s.txs[t], stmt)
    ensures Coherent(s.db, Executed(s, t, s.txs[t], stmt))
  {
    hide Apart, ClaimsHeld, Totals, ExpiredRows, NextKey;
    var tx := s.txs[t];
    assert Coherent(s.db, tx);
    HeldAreThere(s.db, tx.at, tx.claims);
    TotalsOfLinked(s.db, tx.claims);
    if stmt.LockBudget? {
      NextIsATotal(tx, stmt.key);
    }
  }

  lemma HeldAreThere(db: Db, at: Instant, claims: seq<ResId>)
    requires ClaimsHeld(db, at, claims)
    ensures forall id :: id in claims ==> id in db.log
  {
  }

  lemma NextIsATotal(tx: Tx, k: KeyId)
    requires tx.ReapLocking? && NextKey(tx, k)
    ensures k in tx.totals.Keys
  {
  }

  lemma ReleaseCoherent(s: Sys, t: TxId, k: KeyId)
    requires SysInv(s) && t in s.txs && CanExecute(s, t, s.txs[t], ReleaseBudget(k))
    ensures Coherent(s.db, Executed(s, t, s.txs[t], ReleaseBudget(k)))
  {
    hide Linked, Apart, ClaimsHeld, Totals, ExpiredRows, NextKey;
    assert Coherent(s.db, s.txs[t]);
  }

  lemma RequestCoherent(s: Sys, t: TxId, stmt: Statement)
    requires SysInv(s) && t in s.txs && !OfReaper(stmt) && CanExecute(s, t, s.txs[t], stmt)
    ensures Coherent(s.db, Executed(s, t, s.txs[t], stmt))
  {
    assert Coherent(s.db, s.txs[t]);
  }

  /** Statements keep the transaction coherent. */
  lemma ExecutedCoherent(s: Sys, t: TxId, stmt: Statement)
    requires SysInv(s) && t in s.txs && CanExecute(s, t, s.txs[t], stmt)
    ensures Coherent(s.db, Executed(s, t, s.txs[t], stmt))
  {
    if stmt.Claim? {
      ClaimCoherent(s, t, stmt.id);
    } else if stmt.ReleaseBudget? {
      ReleaseCoherent(s, t, stmt.key);
    } else if OfReaper(stmt) {
      SweepingCoherent(s, t, stmt);
    } else {
      RequestCoherent(s, t, stmt);
    }
  }

  /** Statements take only locks that nobody else holds. */
  lemma LocksTaken(s: Sys, t: TxId, stmt: Statement)
    requires t in s.txs && CanExecute(s, t, s.txs[t], stmt)
    ensures var tx' := Executed(s, t, s.txs[t], stmt);
      && (forall k :: k in BudgetLocks(tx') ==> k in BudgetLocks(s.txs[t]) || BudgetFree(s, t, k))
      && (forall id :: id in RowLocks(tx') ==> id in RowLocks(s.txs[t]) || RowFree(s, t, id))
  {
    hide Matches, Admits, Reserved, Settles, Closed, Charged, Totals, ExpiredRows, NewReservation, BudgetFree, RowFree;
  }

  lemma ExecutedApart(s: Sys, t: TxId, stmt: Statement, u: TxId)
    requires SysInv(s) && t in s.txs && u in s.txs && t != u && CanExecute(s, t, s.txs[t], stmt)
    ensures Apart(Executed(s, t, s.txs[t], stmt), s.txs[u])
    ensures Apart(s.txs[u], Executed(s, t, s.txs[t], stmt))
  {
    hide Executed, CanExecute, Coherent, BudgetLocks, RowLocks;
    assert Apart(s.txs[t], s.txs[u]);
    LocksTaken(s, t, stmt);
  }

  lemma ExecuteKeepsInv(s: Sys, t: TxId, stmt: Statement)
    requires SysInv(s) && Allowed(s, Execute(t, stmt))
    ensures SysInv(Act(s, Execute(t, stmt)))
  {
    hide Executed, CanExecute, Coherent, Apart, Linked;
    ExecutedCoherent(s, t, stmt);
    forall u | u in s.txs && u != t
      ensures Apart(Executed(s, t, s.txs[t], stmt), s.txs[u]) && Apart(s.txs[u], Executed(s, t, s.txs[t], stmt))
    {
      ExecutedApart(s, t, stmt, u);
    }
  }

  // ----- commits -----------------------------------------------------------

  lemma RequestInstalled(db: Db, tx: Tx)
    requires Linked(db) && Coherent(db, tx) && (tx.ReserveInserted? || tx.SettleApplied? || tx.UpdateApplied?)
    ensures Atomic(tx).Some? && Ledger.Enabled(db, Atomic(tx).value)
    ensures Installed(db, tx) == Ledger.Step(db, Atomic(tx).value)
  {
    match tx
    case ReserveInserted(_, _, _, _, _, _) => ReserveInstalled(db, tx);
    case SettleApplied(_, _, _, _, _) => SettleInstalled(db, tx);
    case UpdateApplied(_, _, _) => UpdateInstalled(db, tx);
  }

  lemma ReserveInstalled(db: Db, tx: Tx)
    requires Linked(db) && Coherent(db, tx) && tx.ReserveInserted?
    ensures Atomic(tx).Some? && Ledger.Enabled(db, Atomic(tx).value)
    ensures Installed(db, tx) == Ledger.Step(db, Atomic(tx).value)
  {
    hide Admits, Reserved, Allows, VersionOf, NewReservation;
  }

  lemma SettleInstalled(db: Db, tx: Tx)
    requires Linked(db) && Coherent(db, tx) && tx.SettleApplied?
    ensures Atomic(tx).Some? && Ledger.Enabled(db, Atomic(tx).value)
    ensures Installed(db, tx) == Ledger.Step(db, Atomic(tx).value)
  {
    hide Charged, Closed;
  }

  lemma UpdateInstalled(db: Db, tx: Tx)
    requires Linked(db) && Coherent(db, tx) && tx.UpdateApplied?
    ensures Atomic(tx).Some? && Ledger.Enabled(db, Atomic(tx).value)
    ensures Installed(db, tx) == Ledger.Step(db, Atomic(tx).value)
  {
  }

  lemma SweptLog(log: map<ResId, Reservation>, claims: seq<ResId>)
    requires forall id :: id in claims ==> id in log
    ensures log + ExpiredRows(log, claims) == ExpireAll(log, claims)
  {
  }

  lemma ReapInstalled(db: Db, tx: Tx)
    requires Linked(db) && Coherent(db, tx) && tx.ReapReleasing? && tx.rows.Keys == tx.totals.Keys
    ensures Ledger.Enabled(db, Ledger.Reap(tx.claims, tx.at))
    ensures Installed(db, tx) == Ledger.Step(db, Ledger.Reap(tx.claims, tx.at))
  {
    SweptBudgets(db, tx);
    SweptLog(db.log, tx.claims);
  }

  lemma NothingInstalled(db: Db, tx: Tx)
    requires tx.Nothing?
    ensures Installed(db, tx) == db
  {
  }

  lemma CommitRefines(s: Sys, t: TxId)
    requires SysInv(s) && t in s.txs && Finished(s.txs[t])
    ensures match Atomic(s.txs[t])
            case None => Installed(s.db, s.txs[t]) == s.db
            case Some(a) => Ledger.Enabled(s.db, a) && Installed(s.db, s.txs[t]) == Ledger.Step(s.db, a)
  {
    hide *;
    var tx := s.txs[t];
    InvAt(s, t);
    AtomicOf(tx);
    if tx.Nothing? {
      NothingInstalled(s.db, tx);
    } else if tx.ReapReleasing? {
      ReapInstalled(s.db, tx);
    } else {
      RequestInstalled(s.db, tx);
    }
  }

  lemma InvAt(s: Sys, t: TxId)
    requires SysInv(s) && t in s.txs
    ensures Linked(s.db) && Coherent(s.db, s.txs[t])
  {
    hide Linked, Coherent, Apart;
  }

  lemma AtomicOf(tx: Tx)
    requires Finished(tx)
    ensures tx.Nothing? || tx.ReapReleasing? || tx.ReserveInserted? || tx.SettleApplied? || tx.UpdateApplied?
    ensures tx.Nothing? ==> Atomic(tx) == None
    ensures tx.ReapReleasing? ==> tx.rows.Keys == tx.totals.Keys && Atomic(tx) == Some(Ledger.Reap(tx.claims, tx.at))
  {
  }

  /** The rows that the reaper wrote, one per key, are those of the atomic sweep. */
  lemma SweptBudgets(db: Db, tx: Tx)
    requires Linked(db) && tx.ReapReleasing? && Coherent(db, tx) && tx.rows.Keys == tx.totals.Keys
    ensures db.budgets + tx.rows == Sweep(db, tx.claims).budgets
  {
    hide ClaimsHeld, ExpiredRows, Linked;
    HeldAreThere(db, tx.at, tx.claims);
    forall k | k in db.budgets
      ensures (db.budgets + tx.rows)[k] == Sweep(db, tx.claims).budgets[k]
    {
      if k !in tx.totals {
        ClaimedNothing(db.log, tx.claims, k);
      }
    }
  }

  lemma WritesUnderLocks(db: Db, tx: Tx)
    requires Coherent(db, tx)
    ensures BudgetWrites(tx).Keys <= BudgetLocks(tx) && LogWrites(tx).Keys <= RowLocks(tx)
    ensures BudgetWrites(tx).Keys <= db.budgets.Keys
  {
    hide Totals, Distinct, Admits, Reserved, Charged;
  }

  lemma InstalledLinked(db: Db, tx: Tx)
    requires Linked(db) && Coherent(db, tx)
    ensures Linked(Installed(db, tx))
  {
    hide Totals, Distinct, Admits, Reserved, Charged;
    WritesUnderLocks(db, tx);
  }

  lemma CommitKeepsInv(s: Sys, t: TxId)
    requires SysInv(s) && Allowed(s, Commit(t))
    ensures SysInv(Act(s, Commit(t)))
  {
    hide Coherent, Linked, Apart, Installed, Finished;
    var db' := Installed(s.db, s.txs[t]);
    InstalledLinked(s.db, s.txs[t]);
    forall u | u in s.txs && u != t
      ensures Coherent(db', s.txs[u])
    {
      assert Apart(s.txs[t], s.txs[u]);
      InstalledUnder(s.db, s.txs[t], s.txs[u]);
      CoherentFrame(s.db, db', s.txs[u]);
    }
  }

  /** A commit writes only rows that its transaction has locked. */
  lemma InstalledUnder(db: Db, tx: Tx, other: Tx)
    requires Coherent(db, tx) && Apart(tx, other)
    ensures SameUnder(db, Installed(db, tx), other)
  {
    hide Coherent, BudgetWrites, LogWrites, BudgetLocks, RowLocks;
    WritesUnderLocks(db, tx);
  }

  lemma AdministerKeepsInv(s: Sys, change: Ledger.Event)
    requires SysInv(s) && Allowed(s, Administer(change))
    ensures SysInv(Act(s, Administer(change)))
  {
    hide Coherent, Apart;
    var db' := Ledger.Step(s.db, change);
    forall u | u in s.txs
      ensures Coherent(db', s.txs[u])
    {
      AdministeredUnder(s.db, change, s.txs[u]);
      CoherentFrame(s.db, db', s.txs[u]);
    }
  }

  lemma AdministeredUnder(db: Db, change: Ledger.Event, tx: Tx)
    requires Linked(db) && Ledger.Enabled(db, change) && (change.CreateKey? || change.Revoke?)
    ensures SameUnder(db, Ledger.Step(db, change), tx)
  {
    hide BudgetLocks, RowLocks;
  }

  lemma BeginKeepsInv(s: Sys, t: TxId, tx: Tx)
    requires SysInv(s) && t !in s.txs && Initial(tx)
    ensures SysInv(s.(txs := s.txs[t := tx]))
  {
    assert BudgetLocks(tx) == {} && RowLocks(tx) == {};
    assert Coherent(s.db, tx);
  }

  lemma DropKeepsInv(s: Sys, t: TxId)
    requires SysInv(s)
    ensures SysInv(s.(txs := s.txs - {t}))
  {
  }

  lemma StepKeepsInv(s: Sys, e: Action)
    requires SysInv(s) && Allowed(s, e)
    ensures SysInv(Act(s, e))
  {
    match e
    case Administer(change) => AdministerKeepsInv(s, change);
    case Begin(t, tx) => BeginKeepsInv(s, t, tx);
    case Execute(t, stmt) => ExecuteKeepsInv(s, t, stmt);
    case Refuse(t) => DropKeepsInv(s, t);
    case Commit(t) => CommitKeepsInv(s, t);
    case Abort(t) => DropKeepsInv(s, t);
  }

  // ----- the refinement ----------------------------------------------------

  lemma StepRefines(s: Sys, e: Action)
    requires SysInv(s) && Allowed(s, e)
    ensures LedgerRuns.Possible(s.db, Commits(s, e))
    ensures LedgerRuns.Run(s.db, Commits(s, e)) == Act(s, e).db
  {
    if e.Commit? {
      CommitRefines(s, e.t);
    }
    var es := Commits(s, e);
    if es != [] {
      assert es[1..] == [];
    }
  }

  /** Every run of the statements is a run of the atomic ledger, whose steps are
      those of the committed transactions in the order of their commits. */
  lemma {:induction false} RunRefines(s: Sys, es: seq<Action>)
    requires SysInv(s) && CanPlay(s, es)
    ensures SysInv(Play(s, es))
    ensures LedgerRuns.Possible(s.db, CommitOrder(s, es))
    ensures LedgerRuns.Run(s.db, CommitOrder(s, es)) == Play(s, es).db
    decreases |es|
  {
    if es != [] {
      StepRefines(s, es[0]);
      StepKeepsInv(s, es[0]);
      RunRefines(Act(s, es[0]), es[1..]);
      LedgerRuns.RunAppend(s.db, Commits(s, es[0]), CommitOrder(Act(s, es[0]), es[1..]));
    }
  }

  /** Whatever is committed, at any moment of any run, is in balance. */
  lemma CommittedStateIsBalanced(s: Sys, es: seq<Action>)
    requires Inv(s.db) && s.txs == map[] && CanPlay(s, es)
    ensures Inv(Play(s, es).db)
  {
    RunRefines(s, es);
    LedgerRuns.RunKeepsInv(s.db, CommitOrder(s, es));
  }

  lemma EmptySystem(s: Sys)
    requires Empty(s.db) && s.txs == map[]
    ensures SysInv(s)
  {
  }

  /** So from an empty database on, every state that is ever committed is in balance. */
  lemma EveryCommittedStateIsBalanced(s: Sys, es: seq<Action>)
    requires Empty(s.db) && s.txs == map[] && CanPlay(s, es)
    ensures Inv(Play(s, es).db)
  {
    EmptyIsBalanced(s.db);
    EmptySystem(s);
    CommittedStateIsBalanced(s, es);
  }

  // ----- rollback ----------------------------------------------------------

  function Drop(s: Sys, t: TxId): Sys {
    s.(txs := s.txs - {t})
  }

  predicate Of(e: Action, t: TxId) {
    !e.Administer? && e.t == t
  }

  function Erase(es: seq<Action>, t: TxId): seq<Action> {
    if es == [] then [] else (if Of(es[0], t) then [] else [es[0]]) + Erase(es[1..], t)
  }

  /** No statement of the others needs a transaction to be there. */
  lemma EnabledWithout(s: Sys, e: Action, t: TxId)
    requires Allowed(s, e) && !Of(e, t)
    ensures Allowed(Drop(s, t), e)
  {
    hide Matches, Admits, Settles, Coherent, SysInv;
    if e.Execute? {
      assert CanExecute(Drop(s, t), e.t, s.txs[e.t], e.stmt);
    }
  }

  lemma ExecutedWithout(s: Sys, u: TxId, stmt: Statement, t: TxId)
    requires u in s.txs && CanExecute(s, u, s.txs[u], stmt) && CanExecute(Drop(s, t), u, s.txs[u], stmt)
    ensures Executed(Drop(s, t), u, s.txs[u], stmt) == Executed(s, u, s.txs[u], stmt)
  {
  }

  lemma StepWithout(s: Sys, e: Action, t: TxId)
    requires Allowed(s, e) && !Of(e, t)
    ensures Allowed(Drop(s, t), e)
    ensures Act(Drop(s, t), e) == Drop(Act(s, e), t)
    ensures Commits(Drop(s, t), e) == Commits(s, e)
  {
    hide Matches, Admits, Settles, Finished, Refused, CanExecute, MayAdminister;
    EnabledWithout(s, e, t);
    if e.Execute? {
      ExecutedWithout(s, e.t, e.stmt, t);
    }
    assert Act(Drop(s, t), e).txs == Drop(Act(s, e), t).txs;
  }

  lemma OwnStepDropped(s: Sys, e: Action, t: TxId)
    requires Allowed(s, e) && Of(e, t) && !e.Commit?
    ensures Drop(Act(s, e), t) == Drop(s, t) && Commits(s, e) == []
  {
    assert Drop(Act(s, e), t).txs == Drop(s, t).txs;
  }

  /** A transaction that never commits leaves no trace: the run without its
      statements is possible too, commits the same and ends in the same state. */
  lemma {:induction false} AbortedLeavesNoTrace(s: Sys, es: seq<Action>, t: TxId)
    requires CanPlay(s, es) && Commit(t) !in es
    ensures CanPlay(Drop(s, t), Erase(es, t))
    ensures Play(Drop(s, t), Erase(es, t)) == Drop(Play(s, es), t)
    ensures CommitOrder(Drop(s, t), Erase(es, t)) == CommitOrder(s, es)
    decreases |es|
  {
    if es != [] {
      hide Act, Allowed, Commits;
      var s' := Act(s, es[0]);
      AbortedLeavesNoTrace(s', es[1..], t);
      if Of(es[0], t) {
        OwnStepDropped(s, es[0], t);
        assert Erase(es, t) == Erase(es[1..], t);
      } else {
        StepWithout(s, es[0], t);
        assert Erase(es, t)[0] == es[0] && Erase(es, t)[1..] == Erase(es[1..], t);
      }
    }
  }

  // ----- revocation --------------------------------------------------------

  /** Reserves that have already found their key's row. */
  predicate Underway(tx: Tx, k: KeyId) {
    (tx.ReserveFound? || tx.ReserveUpdated? || tx.ReserveInserted?) && tx.key == k
  }

  ghost predicate Shut(s: Sys, k: KeyId) {
    && k in s.db.keys && s.db.keys[k].revoked
    && forall t :: t in s.txs ==> !Underway(s.txs[t], k)
  }

  lemma ShutStays(s: Sys, e: Action, k: KeyId)
    requires Shut(s, k) && Allowed(s, e)
    ensures Shut(Act(s, e), k)
    ensures forall a :: a in Commits(s, e) && a.Reserve? ==> a.key != k
  {
  }

  /** Once a key is revoked, no reserve that looks for its row afterwards ever
      commits. */
  lemma {:induction false} RevocationStopsNewReserves(s: Sys, es: seq<Action>, k: KeyId)
    requires Shut(s, k) && CanPlay(s, es)
    ensures LedgerLimits.NoReserve(CommitOrder(s, es), k)
    decreases |es|
  {
    if es != [] {
      ShutStays(s, es[0], k);
      RevocationStopsNewReserves(Act(s, es[0]), es[1..], k);
    }
  }

  /** One that had found its row before goes on to commit after the revocation
      has committed: only the balance row is looked at again. */
  lemma ReserveCommitsAfterRevocation(s: Sys, t: TxId, id: ResId) returns (es: seq<Action>)
    requires SysInv(s) && t in s.txs && s.txs[t].ReserveFound?
    requires CanExecute(s, t, s.txs[t], UpdateBudget)
    requires forall u :: u in s.txs ==> s.txs[t].key !in KeyLocks(s.txs[u])
    requires id !in s.db.log && RowFree(s, t, id)
    ensures CanPlay(s, es) && |CommitOrder(s, es)| == 2
    ensures CommitOrder(s, es)[0] == Ledger.Revoke(s.txs[t].key)
    ensures CommitOrder(s, es)[1].Reserve? && CommitOrder(s, es)[1].key == s.txs[t].key
    ensures id in Play(s, es).db.log
  {
    var k := s.txs[t].key;
    assert Coherent(s.db, s.txs[t]);
    var revoke := Administer(Ledger.Revoke(k));
    var rest := FoundReserveCommits(Act(s, revoke), t, id);
    Chain(s, revoke, rest);
    es := [revoke] + rest;
  }

  /** What is left of a reserve that has found its row and still has room. */
  lemma FoundReserveCommits(s: Sys, t: TxId, id: ResId) returns (es: seq<Action>)
    requires t in s.txs && s.txs[t].ReserveFound? && CanExecute(s, t, s.txs[t], UpdateBudget)
    requires forall u :: u in s.txs ==> s.txs[t].key !in KeyLocks(s.txs[u])
    requires id !in s.db.log && RowFree(s, t, id)
    ensures CanPlay(s, es) && |CommitOrder(s, es)| == 1
    ensures CommitOrder(s, es)[0].Reserve? && CommitOrder(s, es)[0].key == s.txs[t].key
    ensures id in Play(s, es).db.log
  {
    hide Linked, Apart, Reserved, Admits;
    var update, insert, commit := Execute(t, UpdateBudget), Execute(t, InsertReservation(id)), Commit(t);
    var s2 := Act(s, update);
    assert CanExecute(s2, t, s2.txs[t], InsertReservation(id));
    var s3 := Act(s2, insert);
    Chain(s3, commit, []);
    Chain(s2, insert, [commit] + []);
    Chain(s, update, [insert] + ([commit] + []));
    es := [update] + ([insert] + ([commit] + []));
  }

  const ROW: KeyRow := KeyRow("hash", false, None)
  const ASK: Ask := Ask("hash", "model", 1.0, 1, 100)

  /** An empty system, and the same after a key was created and a reserve has found
      its row. */
  function Nobody(): Sys {
    Sys(Db(map[], map[], map[]), map[])
  }

  function OneFound(): Sys {
    Sys(Db(map[0 := ROW], map[0 := Budget(1, None, 0, 0)], map[]), map[0 := ReserveFound(ASK, 0, ROW)])
  }

  const FIND: seq<Action> :=
    [Administer(Ledger.CreateKey(0, ROW, None, 1))] + ([Begin(0, ReserveBegun(ASK))] + [Execute(0, FindBudget(0))])

  lemma FoundFromNothing(rest: seq<Action>)
    requires CanPlay(OneFound(), rest)
    ensures SysInv(OneFound())
    ensures CanPlay(Nobody(), FIND + rest) && Play(Nobody(), FIND + rest) == Play(OneFound(), rest)
    ensures CommitOrder(Nobody(), FIND + rest)
         == [Ledger.CreateKey(0, ROW, None, 1)] + CommitOrder(OneFound(), rest)
  {
    hide *;
    var e0, e1 := Administer(Ledger.CreateKey(0, ROW, None, 1)), Begin(0, ReserveBegun(ASK));
    var e2 := Execute(0, FindBudget(0));
    var s0, s1, s2 := Nobody(), OneKey(), OneAsking();
    KeyIsMade();
    AskingBegins();
    KeyIsFound();
    NobodyIsEmpty();
    StepKeepsInv(s0, e0);
    StepKeepsInv(s1, e1);
    StepKeepsInv(s2, e2);
    Chain(s2, e2, rest);
    Chain(s1, e1, [e2] + rest);
    Chain(s0, e0, [e1] + ([e2] + rest));
    FindIs(rest);
    assert [] + CommitOrder(OneFound(), rest) == CommitOrder(OneFound(), rest);
  }

  function OneKey(): Sys {
    Sys(Db(map[0 := ROW], map[0 := Budget(1, None, 0, 0)], map[]), map[])
  }

  function OneAsking(): Sys {
    OneKey().(txs := map[0 := ReserveBegun(ASK)])
  }

  lemma KeyIsMade()
    ensures
      var e := Administer(Ledger.CreateKey(0, ROW, None, 1));
      && Allowed(Nobody(), e) && Act(Nobody(), e) == OneKey()
      && Commits(Nobody(), e) == [Ledger.CreateKey(0, ROW, None, 1)]
  {
  }

  lemma AskingBegins()
    ensures
      var e := Begin(0, ReserveBegun(ASK));
      Allowed(OneKey(), e) && Act(OneKey(), e) == OneAsking() && Commits(OneKey(), e) == []
  {
  }

  lemma KeyIsFound()
    ensures
      var e := Execute(0, FindBudget(0));
      Allowed(OneAsking(), e) && Act(OneAsking(), e) == OneFound() && Commits(OneAsking(), e) == []
  {
    assert Matches(OneAsking().db, ASK, 0);
    assert CanExecute(OneAsking(), 0, OneAsking().txs[0], FindBudget(0));
  }

  lemma NobodyIsEmpty()
    ensures SysInv(Nobody())
  {
    EmptySystem(Nobody());
  }

  lemma FindIs(rest: seq<Action>)
    ensures FIND + rest
         == [Administer(Ledger.CreateKey(0, ROW, None, 1))]
            + ([Begin(0, ReserveBegun(ASK))] + ([Execute(0, FindBudget(0))] + rest))
  {
  }

  lemma RoomForOne()
    ensures
      var s := OneFound();
      && 0 in s.txs && s.txs.Keys == {0} && s.txs[0] == ReserveFound(ASK, 0, ROW) && s.db.log == map[]
      && CanExecute(s, 0, s.txs[0], UpdateBudget) && CanPlay(s, [])
  {
  }

  /** A whole run of it, from an empty system: the key is created, the reserve finds
      it, the key is revoked, and the reserve commits. */
  lemma RevokedReserveRun() returns (es: seq<Action>)
    ensures CanPlay(Nobody(), es) && |CommitOrder(Nobody(), es)| == 3
    ensures CommitOrder(Nobody(), es)[1] == Ledger.Revoke(0)
    ensures CommitOrder(Nobody(), es)[2].Reserve? && CommitOrder(Nobody(), es)[2].key == 0
    ensures 7 in Play(Nobody(), es).db.log
  {
    hide CanPlay, Play, CommitOrder, SysInv, CanExecute, Nobody, OneFound, FIND;
    RoomForOne();
    FoundFromNothing([]);
    var rest := ReserveCommitsAfterRevocation(OneFound(), 0, 7);
    FoundFromNothing(rest);
    es := FIND + rest;
  }

  lemma Chain(s: Sys, e: Action, es: seq<Action>)
    requires Allowed(s, e) && CanPlay(Act(s, e), es)
    ensures CanPlay(s, [e] + es)
    ensures Play(s, [e] + es) == Play(Act(s, e), es)
    ensures CommitOrder(s, [e] + es) == Commits(s, e) + CommitOrder(Act(s, e), es)
  {
    assert ([e] + es)[1..] == es;
  }
}
