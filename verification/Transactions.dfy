/** The budget transactions, one SQL statement at a time.

    Any number of transactions run side by side under READ COMMITTED, as section
    13.2.1 of the PostgreSQL documentation describes it: a statement looks for
    its rows among those committed when it starts; if a row it found is locked it
    waits, and then looks at the row again in its latest committed version. Row
    versions that are not committed are visible to their own transaction only. */
module Transactions {
  import opened Basics
  import opened Ledger

  type TxId = nat

  /** What a caller asks of a reserve. `now` is the month at the start of the
      transaction, which is what now() means throughout it. */
  datatype Ask = Ask(hash: string, model: string, estimate: Usd, now: Month, expiresAt: Instant)

  datatype Tx =
    // Reserve: UPDATE key_budgets, INSERT budget_reservations
    | ReserveBegun(ask: Ask)
    | ReserveFound(ask: Ask, key: KeyId, seen: KeyRow)
    | ReserveUpdated(ask: Ask, key: KeyId, seen: KeyRow, row: Budget)
    | ReserveInserted(ask: Ask, key: KeyId, seen: KeyRow, row: Budget, id: ResId, entry: Reservation)
    // Settle: UPDATE budget_reservations, UPDATE key_budgets
    | SettleBegun(id: ResId, cost: Usd)
    | SettleFound(id: ResId, cost: Usd)
    | SettleMarked(id: ResId, cost: Usd, prior: Reservation, entry: Reservation)
    | SettleApplied(id: ResId, cost: Usd, prior: Reservation, entry: Reservation, row: Budget)
    // Reap: SELECT .. SKIP LOCKED, SELECT .. ORDER BY key_id FOR UPDATE,
    // UPDATE budget_reservations, UPDATE key_budgets once per key
    | ReapClaiming(at: Instant, batch: nat, claims: seq<ResId>)
    | ReapLocking(at: Instant, claims: seq<ResId>, totals: map<KeyId, nat>, locked: set<KeyId>)
    | ReapReleasing(at: Instant, claims: seq<ResId>, totals: map<KeyId, nat>,
                    entries: map<ResId, Reservation>, rows: map<KeyId, Budget>)
    // UpdateKey: SELECT virtual_keys FOR UPDATE, UPDATE key_budgets
    | UpdateBegun(key: KeyId, limit: Option<nat>)
    | UpdateLocked(key: KeyId, limit: Option<nat>)
    | UpdateApplied(key: KeyId, limit: Option<nat>, row: Budget)
    // a settle or a sweep that matched no row, about to commit nothing
    | Nothing

  datatype Sys = Sys(db: Db, txs: map<TxId, Tx>)

  // ----- locks and uncommitted versions ------------------------------------

  /** Rows of key_budgets that a transaction has locked. */
  function BudgetLocks(tx: Tx): set<KeyId> {
    match tx
    case ReserveUpdated(_, k, _, _) => {k}
    case ReserveInserted(_, k, _, _, _, _) => {k}
    case SettleApplied(_, _, prior, _, _) => {prior.key}
    case ReapLocking(_, _, _, locked) => locked
    case ReapReleasing(_, _, totals, _, _) => totals.Keys
    case UpdateApplied(k, _, _) => {k}
    case _ => {}
  }

  /** Rows of budget_reservations that a transaction has locked or inserted. */
  function RowLocks(tx: Tx): set<ResId> {
    match tx
    case ReserveInserted(_, _, _, _, id, _) => {id}
    case SettleMarked(id, _, _, _) => {id}
    case SettleApplied(id, _, _, _, _) => {id}
    case ReapClaiming(_, _, claims) => set id | id in claims
    case ReapLocking(_, claims, _, _) => set id | id in claims
    case ReapReleasing(_, claims, _, _, _) => set id | id in claims
    case _ => {}
  }

  /** Rows of virtual_keys locked FOR UPDATE. */
  function KeyLocks(tx: Tx): set<KeyId> {
    match tx
    case UpdateLocked(k, _) => {k}
    case UpdateApplied(k, _, _) => {k}
    case _ => {}
  }

  /** Rows of virtual_keys locked FOR KEY SHARE by the foreign key of the INSERT. */
  function KeyShares(tx: Tx): set<KeyId> {
    if tx.ReserveInserted? then {tx.key} else {}
  }

  function BudgetWrites(tx: Tx): map<KeyId, Budget> {
    match tx
    case ReserveUpdated(_, k, _, row) => map[k := row]
    case ReserveInserted(_, k, _, row, _, _) => map[k := row]
    case SettleApplied(_, _, prior, _, row) => map[prior.key := row]
    case ReapReleasing(_, _, _, _, rows) => rows
    case UpdateApplied(k, _, row) => map[k := row]
    case _ => map[]
  }

  function LogWrites(tx: Tx): map<ResId, Reservation> {
    match tx
    case ReserveInserted(_, _, _, _, id, entry) => map[id := entry]
    case SettleMarked(id, _, _, entry) => map[id := entry]
    case SettleApplied(id, _, _, entry, _) => map[id := entry]
    case ReapReleasing(_, _, _, entries, _) => entries
    case _ => map[]
  }

  predicate BudgetFree(s: Sys, t: TxId, k: KeyId) {
    forall u :: u in s.txs && u != t ==> k !in BudgetLocks(s.txs[u])
  }

  predicate RowFree(s: Sys, t: TxId, id: ResId) {
    forall u :: u in s.txs && u != t ==> id !in RowLocks(s.txs[u])
  }

  predicate KeyUnlocked(s: Sys, t: TxId, k: KeyId) {
    forall u :: u in s.txs && u != t ==> k !in KeyLocks(s.txs[u])
  }

  predicate KeyUnshared(s: Sys, t: TxId, k: KeyId) {
    forall u :: u in s.txs && u != t ==> k !in KeyShares(s.txs[u])
  }

  // ----- the reaper's arithmetic -------------------------------------------

  /** What the reaper adds up per key from the rows it has claimed. */
  function Totals(log: map<ResId, Reservation>, claims: seq<ResId>): map<KeyId, nat>
    requires forall id :: id in claims ==> id in log
  {
    map k | k in (set id | id in claims :: log[id].key) :: Claimed(log, claims, k)
  }

  /** The row versions that the reaper writes for its claims. */
  function ExpiredRows(log: map<ResId, Reservation>, claims: seq<ResId>): map<ResId, Reservation>
    requires forall id :: id in claims ==> id in log
  {
    map id | id in claims :: log[id].(state := Expired)
  }

  /** The next budget row the reaper locks: it takes them in key order. */
  ghost predicate NextKey(tx: Tx, k: KeyId)
    requires tx.ReapLocking?
  {
    && k in tx.totals.Keys - tx.locked
    && forall j :: j in tx.totals.Keys - tx.locked ==> k <= j
  }

  // ----- statements --------------------------------------------------------

  datatype Statement =
    | FindBudget(key: KeyId)
    | UpdateBudget
    | InsertReservation(id: ResId)
    | FindReservation
    | MissReservation
    | MarkReservation
    | ChargeBudget
    | Claim(id: ResId)
    | EndClaims
    | LockBudget(key: KeyId)
    | ExpireClaims
    | ReleaseBudget(key: KeyId)
    | LockKey
    | WriteLimit

  datatype Action =
    | Begin(t: TxId, tx: Tx)
    | Execute(t: TxId, stmt: Statement)
    | Refuse(t: TxId)
    | Commit(t: TxId)
    | Abort(t: TxId)
    | Administer(change: Ledger.Event)

  predicate Initial(tx: Tx) {
    tx.ReserveBegun? || tx.SettleBegun? || tx.UpdateBegun? || (tx.ReapClaiming? && tx.claims == [])
  }

  /** The WHERE clause of the reserve, on committed rows. */
  predicate Matches(db: Db, ask: Ask, k: KeyId) {
    && k in db.keys && k in db.budgets
    && Allows(db.keys[k], ask.hash, ask.model)
    && Admits(db.budgets[k], ask.estimate, ask.now)
  }

  /** Whether a statement can run to its end now: its rows are there and nobody
      else holds a lock that it has to wait for. */
  ghost predicate CanExecute(s: Sys, t: TxId, tx: Tx, stmt: Statement) {
    match stmt
    case FindBudget(k) => tx.ReserveBegun? && Matches(s.db, tx.ask, k)
    case UpdateBudget =>
      && tx.ReserveFound? && BudgetFree(s, t, tx.key)
      && tx.key in s.db.budgets && Admits(s.db.budgets[tx.key], tx.ask.estimate, tx.ask.now)
    case InsertReservation(id) =>
      tx.ReserveUpdated? && id !in s.db.log && RowFree(s, t, id) && KeyUnlocked(s, t, tx.key)
    case FindReservation => tx.SettleBegun? && Settles(s.db, tx.id)
    case MissReservation =>
      && (tx.SettleBegun? || (tx.SettleFound? && RowFree(s, t, tx.id)))
      && !Settles(s.db, tx.id)
    case MarkReservation => tx.SettleFound? && RowFree(s, t, tx.id) && Settles(s.db, tx.id)
    case ChargeBudget => tx.SettleMarked? && BudgetFree(s, t, tx.prior.key) && tx.prior.key in s.db.budgets
    case Claim(id) =>
      && tx.ReapClaiming? && |tx.claims| < tx.batch
      && id in s.db.log && s.db.log[id].state == Pending && s.db.log[id].expiresAt < tx.at
      && id !in tx.claims && RowFree(s, t, id)
    case EndClaims => tx.ReapClaiming? && forall id :: id in tx.claims ==> id in s.db.log
    case LockBudget(k) => tx.ReapLocking? && NextKey(tx, k) && BudgetFree(s, t, k)
    case ExpireClaims =>
      tx.ReapLocking? && tx.locked == tx.totals.Keys && forall id :: id in tx.claims ==> id in s.db.log
    case ReleaseBudget(k) => tx.ReapReleasing? && k in tx.totals.Keys - tx.rows.Keys && k in s.db.budgets
    case LockKey => tx.UpdateBegun? && tx.key in s.db.keys && KeyUnlocked(s, t, tx.key) && KeyUnshared(s, t, tx.key)
    case WriteLimit => tx.UpdateLocked? && BudgetFree(s, t, tx.key) && tx.key in s.db.budgets
  }

  /** The transaction after the statement. SET clauses read the latest committed
      version of the row, which the transaction has just locked. */
  ghost function Executed(s: Sys, t: TxId, tx: Tx, stmt: Statement): Tx
    requires CanExecute(s, t, tx, stmt)
  {
    var db := s.db;
    match stmt
    case FindBudget(k) => ReserveFound(tx.ask, k, db.keys[k])
    case UpdateBudget =>
      ReserveUpdated(tx.ask, tx.key, tx.seen, Reserved(db.budgets[tx.key], tx.ask.estimate, tx.ask.now))
    case InsertReservation(id) =>
      ReserveInserted(tx.ask, tx.key, tx.seen, tx.row, id,
        NewReservation(tx.key, tx.row.window, tx.ask.estimate, tx.ask.expiresAt))
    case FindReservation => SettleFound(tx.id, tx.cost)
    case MissReservation => Nothing
    case MarkReservation => SettleMarked(tx.id, tx.cost, db.log[tx.id], Closed(db.log[tx.id], tx.cost))
    case ChargeBudget =>
      SettleApplied(tx.id, tx.cost, tx.prior, tx.entry, Charged(db.budgets[tx.prior.key], tx.prior, tx.cost))
    case Claim(id) => ReapClaiming(tx.at, tx.batch, tx.claims + [id])
    case EndClaims =>
      if tx.claims == [] then Nothing else ReapLocking(tx.at, tx.claims, Totals(db.log, tx.claims), {})
    case LockBudget(k) => ReapLocking(tx.at, tx.claims, tx.totals, tx.locked + {k})
    case ExpireClaims =>
      ReapReleasing(tx.at, tx.claims, tx.totals, ExpiredRows(db.log, tx.claims), map[])
    case ReleaseBudget(k) =>
      tx.(rows := tx.rows[k := db.budgets[k].(reserved := db.budgets[k].reserved - tx.totals[k])])
    case LockKey => UpdateLocked(tx.key, tx.limit)
    case WriteLimit => UpdateApplied(tx.key, tx.limit, db.budgets[tx.key].(limit := tx.limit))
  }

  /** A statement that matches no row ends its transaction. For a reserve: none in the committed state when it looks
      first, or not its row any more when it looks again after waiting. */
  predicate Refused(s: Sys, t: TxId, tx: Tx) {
    || (tx.ReserveBegun? && forall k :: k in s.db.keys ==> !Matches(s.db, tx.ask, k))
    || (tx.ReserveFound? && BudgetFree(s, t, tx.key)
        && !(tx.key in s.db.budgets && Admits(s.db.budgets[tx.key], tx.ask.estimate, tx.ask.now)))
    || (tx.UpdateBegun? && tx.key !in s.db.keys)
  }

  /** Transactions that may commit. */
  predicate Finished(tx: Tx) {
    || tx.ReserveInserted? || tx.SettleApplied? || tx.UpdateApplied? || tx.Nothing?
    || (tx.ReapReleasing? && tx.rows.Keys == tx.totals.Keys)
  }

  /** Changes that are one step here. Revoking a key is a single statement that commits
      on its own; creating one takes two INSERTs, of rows that nobody else sees or locks
      before they are committed together. */
  predicate MayAdminister(s: Sys, change: Ledger.Event) {
    && Ledger.Enabled(s.db, change)
    && (change.CreateKey? || (change.Revoke? && forall u :: u in s.txs ==> change.key !in KeyLocks(s.txs[u])))
  }

  ghost predicate Allowed(s: Sys, e: Action) {
    match e
    case Administer(change) => MayAdminister(s, change)
    case Begin(t, tx) => t !in s.txs && Initial(tx)
    case Execute(t, stmt) => t in s.txs && CanExecute(s, t, s.txs[t], stmt)
    case Refuse(t) => t in s.txs && Refused(s, t, s.txs[t])
    case Commit(t) => t in s.txs && Finished(s.txs[t])
    case Abort(t) => t in s.txs
  }

  function Installed(db: Db, tx: Tx): Db {
    db.(budgets := db.budgets + BudgetWrites(tx), log := db.log + LogWrites(tx))
  }

  ghost function Act(s: Sys, e: Action): Sys
    requires Allowed(s, e)
  {
    match e
    case Administer(change) => s.(db := Ledger.Step(s.db, change))
    case Begin(t, tx) => s.(txs := s.txs[t := tx])
    case Execute(t, stmt) => s.(txs := s.txs[t := Executed(s, t, s.txs[t], stmt)])
    case Refuse(t) => s.(txs := s.txs - {t})
    case Commit(t) => Sys(Installed(s.db, s.txs[t]), s.txs - {t})
    case Abort(t) => s.(txs := s.txs - {t})
  }

  // ----- the atomic step a commit stands for -------------------------------

  /** The step of the atomic ledger that happens at a commit, if any. */
  function Atomic(tx: Tx): Option<Ledger.Event> {
    match tx
    case ReserveInserted(ask, k, seen, _, id, _) =>
      Some(Ledger.Reserve(k, seen, ask.hash, ask.model, ask.estimate, ask.now, ask.expiresAt, id))
    case SettleApplied(id, cost, _, _, _) => Some(Ledger.Settle(id, cost))
    case ReapReleasing(at, claims, _, _, _) => Some(Ledger.Reap(claims, at))
    case UpdateApplied(k, limit, _) => Some(Ledger.SetLimit(k, limit))
    case _ => None
  }

  ghost function Commits(s: Sys, e: Action): seq<Ledger.Event>
    requires Allowed(s, e)
  {
    match e
    case Administer(change) => [change]
    case Commit(t) => if Atomic(s.txs[t]).Some? then [Atomic(s.txs[t]).value] else []
    case _ => []
  }

  ghost predicate CanPlay(s: Sys, es: seq<Action>)
    decreases |es|
  {
    es == [] || (Allowed(s, es[0]) && CanPlay(Act(s, es[0]), es[1..]))
  }

  ghost function Play(s: Sys, es: seq<Action>): Sys
    requires CanPlay(s, es)
    decreases |es|
  {
    if es == [] then s else Play(Act(s, es[0]), es[1..])
  }

  /** The atomic steps of a run, in the order of their commits. */
  ghost function CommitOrder(s: Sys, es: seq<Action>): seq<Ledger.Event>
    requires CanPlay(s, es)
    decreases |es|
  {
    if es == [] then [] else Commits(s, es[0]) + CommitOrder(Act(s, es[0]), es[1..])
  }
}
