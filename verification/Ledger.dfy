/** The budget ledger as one atomic step machine.

    A balance per key is a cache of the reservation log. Every operation of the
    store changes both in one step, and the invariant says that they agree. */
module Ledger {
  import opened Basics

  type KeyId = nat
  type ResId = nat
  type Month = int
  type Instant = int

  datatype KeyRow = KeyRow(hash: string, revoked: bool, allowed: Option<set<string>>)

  datatype Budget = Budget(window: Month, limit: Option<nat>, spent: int, reserved: int)

  datatype State = Pending | Expired | Settled

  datatype Reservation = Reservation(
    key: KeyId,
    window: Month,
    state: State,
    estimated: nat,
    actual: nat,
    expiresAt: Instant,
    overshoot: bool,
    settledAfterExpiry: bool)

  datatype Db = Db(
    keys: map<KeyId, KeyRow>,
    budgets: map<KeyId, Budget>,
    log: map<ResId, Reservation>)

  // ----- one row at a time -------------------------------------------------

  /** The authentication and model predicates of the reserve. */
  predicate Allows(row: KeyRow, hash: string, model: string) {
    row.hash == hash && !row.revoked && (row.allowed.None? || model in row.allowed.value)
  }

  /** What a statement may have seen of a key: its row as it is, or as it was before
      the key was revoked. */
  predicate VersionOf(seen: KeyRow, row: KeyRow) {
    seen.hash == row.hash && seen.allowed == row.allowed && (seen.revoked ==> row.revoked)
  }

  function SpentAt(b: Budget, now: Month): int {
    if b.window < now then 0 else b.spent
  }

  /** The budget predicate of the reserve. It compares the amount as given, not
      as it will be stored. */
  predicate Admits(b: Budget, estimate: Usd, now: Month) {
    b.limit.None? || (SpentAt(b, now) + b.reserved) as real + estimate <= b.limit.value as real
  }

  function Reserved(b: Budget, estimate: Usd, now: Month): Budget
  {
    Budget(Max(b.window, now), b.limit, SpentAt(b, now), Quantise(b.reserved as real + estimate))
  }

  function NewReservation(k: KeyId, window: Month, estimate: Usd, expiresAt: Instant): Reservation {
    Reservation(k, window, Pending, Quantise(estimate), 0, expiresAt, false, false)
  }

  predicate Open(r: Reservation) {
    r.state == Pending || r.state == Expired
  }

  function Closed(r: Reservation, actual: Usd): Reservation {
    r.(state := Settled,
       actual := Quantise(actual),
       overshoot := actual > r.estimated as real,
       settledAfterExpiry := r.state == Expired)
  }

  /** The balance after the reservation `r`, not yet settled, is settled. */
  function Charged(b: Budget, r: Reservation, actual: Usd): Budget {
    b.(reserved := b.reserved - (if r.state == Expired then 0 else r.estimated),
       spent := if b.window == r.window then Quantise(b.spent as real + actual) else b.spent)
  }

  /** The sum of the estimates that the claimed reservations hold on one key. */
  function Claimed(log: map<ResId, Reservation>, ids: seq<ResId>, k: KeyId): nat
    requires forall id :: id in ids ==> id in log
  {
    if ids == [] then 0
    else
      var last := ids[|ids| - 1];
      Claimed(log, ids[..|ids| - 1], k) + (if log[last].key == k then log[last].estimated else 0)
  }

  lemma {:induction false} ClaimedNothing(log: map<ResId, Reservation>, claims: seq<ResId>, k: KeyId)
    requires forall id :: id in claims ==> id in log && log[id].key != k
    ensures Claimed(log, claims, k) == 0
  {
    if claims != [] {
      assert claims[|claims| - 1] in claims;
      ClaimedNothing(log, claims[..|claims| - 1], k);
    }
  }

  predicate Distinct<T(==)>(s: seq<T>) {
    forall i, j :: 0 <= i < j < |s| ==> s[i] != s[j]
  }

  // ----- the atomic machine ------------------------------------------------

  datatype Event =
    | CreateKey(key: KeyId, row: KeyRow, limit: Option<nat>, month: Month)
    | SetLimit(key: KeyId, limit: Option<nat>)
    | Revoke(key: KeyId)
    | Reserve(key: KeyId, seen: KeyRow, hash: string, model: string,
              estimate: Usd, now: Month, expiresAt: Instant, id: ResId)
    | Settle(id: ResId, cost: Usd)
    | Reap(ids: seq<ResId>, at: Instant)

  predicate Enabled(db: Db, e: Event) {
    match e
    case CreateKey(k, row, _, _) =>
      k !in db.budgets && k !in db.keys && forall j :: j in db.keys ==> db.keys[j].hash != row.hash
    case SetLimit(k, _) => k in db.budgets
    case Revoke(k) => k in db.keys
    case Reserve(k, seen, hash, model, estimate, now, _, id) =>
      && k in db.budgets && id !in db.log
      && k in db.keys && VersionOf(seen, db.keys[k]) && Allows(seen, hash, model)
      && Admits(db.budgets[k], estimate, now)
    case Settle(id, _) => true
    case Reap(ids, at) =>
      && Distinct(ids)
      && forall id :: id in ids ==> id in db.log && db.log[id].state == Pending && db.log[id].expiresAt < at
  }

  function Step(db: Db, e: Event): Db
    requires Enabled(db, e)
  {
    match e
    case CreateKey(k, row, limit, month) =>
      db.(keys := db.keys[k := row], budgets := db.budgets[k := Budget(month, limit, 0, 0)])
    case SetLimit(k, limit) => db.(budgets := db.budgets[k := db.budgets[k].(limit := limit)])
    case Revoke(k) => db.(keys := db.keys[k := db.keys[k].(revoked := true)])
    case Reserve(k, _, _, _, estimate, now, expiresAt, id) =>
      var b := Reserved(db.budgets[k], estimate, now);
      db.(budgets := db.budgets[k := b], log := db.log[id := NewReservation(k, b.window, estimate, expiresAt)])
    case Settle(id, cost) => Settlement(db, id, cost)
    case Reap(ids, _) => Sweep(db, ids)
  }

  predicate Settles(db: Db, id: ResId) {
    id in db.log && Open(db.log[id])
  }

  function Settlement(db: Db, id: ResId, cost: Usd): Db {
    if !Settles(db, id) then db
    else
      var r := db.log[id];
      db.(budgets := if r.key in db.budgets
                     then db.budgets[r.key := Charged(db.budgets[r.key], r, cost)] else db.budgets,
          log := db.log[id := Closed(r, cost)])
  }

  function Sweep(db: Db, ids: seq<ResId>): Db
    requires forall id :: id in ids ==> id in db.log
  {
    Db(db.keys,
       map k | k in db.budgets ::
         db.budgets[k].(reserved := db.budgets[k].reserved - Claimed(db.log, ids, k)),
       ExpireAll(db.log, ids))
  }

  function ExpireAll(log: map<ResId, Reservation>, ids: seq<ResId>): map<ResId, Reservation> {
    map id | id in log :: if id in ids then log[id].(state := Expired) else log[id]
  }

  // ----- sums over the log -------------------------------------------------

  function PendingOf(k: KeyId): Reservation -> int {
    (r: Reservation) => if r.key == k && r.state == Pending then r.estimated else 0
  }

  function SettledIn(k: KeyId, w: Month): Reservation -> int {
    (r: Reservation) => if r.key == k && r.window == w && r.state == Settled then r.actual else 0
  }

  ghost function Pick<V>(log: map<ResId, V>): (id: ResId)
    requires log != map[]
    ensures id in log
  {
    assert log.Keys != {};
    var id :| id in log.Keys; id
  }

  ghost function Total<V>(log: map<ResId, V>, w: V -> int): int
    decreases |log|
  {
    if log == map[] then 0
    else var id := Pick(log); w(log[id]) + Total(log - {id}, w)
  }

  /** The sum does not depend on the order in which the rows are visited. */
  lemma {:induction false} TotalPick<V>(log: map<ResId, V>, w: V -> int, id: ResId)
    requires id in log
    ensures Total(log, w) == w(log[id]) + Total(log - {id}, w)
    decreases |log|
  {
    var x := Pick(log);
    if x != id {
      TotalPick(log - {x}, w, id);
      TotalPick(log - {id}, w, x);
      assert log - {x} - {id} == log - {id} - {x};
    }
  }

  /** What writing one row does to a sum. */
  lemma TotalWrite<V>(log: map<ResId, V>, w: V -> int, id: ResId, r: V)
    ensures Total(log[id := r], w) == Total(log, w) - (if id in log then w(log[id]) else 0) + w(r)
  {
    TotalPick(log[id := r], w, id);
    assert log[id := r] - {id} == log - {id};
    if id in log {
      TotalPick(log, w, id);
    } else {
      assert log - {id} == log;
    }
  }

  lemma {:induction false} TotalBounds<V>(log: map<ResId, V>, w: V -> int)
    requires forall id :: id in log ==> 0 <= w(log[id])
    ensures 0 <= Total(log, w)
    ensures forall id :: id in log ==> w(log[id]) <= Total(log, w)
    decreases |log|
  {
    forall id | id in log
      ensures w(log[id]) <= Total(log, w)
    {
      TotalBounds(log - {id}, w);
      TotalPick(log, w, id);
    }
    if log != map[] {
      TotalBounds(log - {Pick(log)}, w);
    }
  }

  lemma {:induction false} TotalZero<V>(log: map<ResId, V>, w: V -> int)
    requires forall id :: id in log ==> w(log[id]) == 0
    ensures Total(log, w) == 0
    decreases |log|
  {
    if log != map[] {
      TotalZero(log - {Pick(log)}, w);
    }
  }

  // ----- the invariant -----------------------------------------------------

  lemma TotalsNonNegative(log: map<ResId, Reservation>, k: KeyId, w: Month)
    ensures 0 <= Total(log, PendingOf(k)) && 0 <= Total(log, SettledIn(k, w))
  {
    TotalBounds(log, PendingOf(k));
    TotalBounds(log, SettledIn(k, w));
  }

  /** The first reconciliation check, as a predicate on one key. */
  ghost predicate Balanced(db: Db, k: KeyId)
    requires k in db.budgets
  {
    && db.budgets[k].reserved == Total(db.log, PendingOf(k))
    && db.budgets[k].spent == Total(db.log, SettledIn(k, db.budgets[k].window))
  }

  ghost predicate Inv(db: Db) {
    && (forall k :: k in db.budgets ==> Balanced(db, k) && 0 <= db.budgets[k].reserved && 0 <= db.budgets[k].spent)
    && (forall id :: id in db.log ==>
          db.log[id].key in db.budgets && db.log[id].window <= db.budgets[db.log[id].key].window)
    && db.keys.Keys == db.budgets.Keys
  }

  ghost predicate Empty(db: Db) {
    db == Db(map[], map[], map[])
  }

  lemma EmptyIsBalanced(db: Db)
    requires Empty(db)
    ensures Inv(db)
  {
  }
}
