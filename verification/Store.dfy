/** The store's budget operations, statement by statement, over its two tables.

    A transaction works on local copies of the rows and installs them when it
    commits; `fault` says which of its statements fails, if any. */
module Store {
  import opened Basics
  import opened Ledger
  import LedgerLimits
  import LedgerRuns
  import Transactions

  /** The statement at which the database reports an error. */
  datatype Fault = NoFault | At(statement: nat)

  datatype Refusal =
    | KeyNotFound
    | KeyRevoked
    | ModelNotAllowed
    | BudgetExceeded(limit: Option<nat>, spent: int, reserved: int)
    | Database

  datatype ReserveResult =
    | Admitted(id: ResId, key: KeyId, window: Month)
    | NotAdmitted(why: Refusal)

  datatype SettleResult =
    | Ran(applied: bool, overshoot: bool, afterExpiry: bool, estimated: nat, window: Month)
    | NotSettled

  ghost predicate Constrained(db: Db) {
    && db.keys.Keys == db.budgets.Keys
    && (forall id :: id in db.log ==> db.log[id].key in db.budgets)
    && (forall j, k :: j in db.keys && k in db.keys && db.keys[j].hash == db.keys[k].hash ==> j == k)
  }

  /** Reservations that a sweep at `at` may claim. */
  predicate Overdue(r: Reservation, at: Instant) {
    r.state == Pending && r.expiresAt < at
  }

  ghost predicate SweepOf(db: Db, at: Instant, batch: nat, claims: seq<ResId>) {
    && Enabled(db, Reap(claims, at)) && |claims| <= batch
    && (forall id :: id in db.log && Overdue(db.log[id], at) && id !in claims ==>
          |claims| == batch && forall c :: c in claims ==> db.log[c].expiresAt <= db.log[id].expiresAt)
  }

  class Store {
    var keys: map<KeyId, KeyRow>
    var budgets: map<KeyId, Budget>
    var log: map<ResId, Reservation>

    ghost function Contents(): Db
      reads this
    {
      Db(keys, budgets, log)
    }

    constructor ()
      ensures Contents() == Db(map[], map[], map[])
    {
      keys, budgets, log := map[], map[], map[];
    }

    // ----- Reserve ---------------------------------------------------------

    method Reserve(ask: Transactions.Ask, id: ResId, fault: Fault) returns (r: ReserveResult)
      requires Constrained(Contents()) && id !in log
      modifies this
      ensures r.Admitted? <==>
        fault == NoFault && exists k :: k in old(keys) && Fits(old(Contents()), ask, k)
      ensures r.Admitted? ==>
        && r.key in old(keys) && old(keys)[r.key].hash == ask.hash && !old(keys)[r.key].revoked
        && (old(keys)[r.key].allowed.None? || ask.model in old(keys)[r.key].allowed.value)
      ensures fault == NoFault && (forall k :: k in old(keys) ==> old(keys)[k].hash != ask.hash) ==>
        r == NotAdmitted(KeyNotFound)
      ensures r.Admitted? ==>
        && r.id == id && r.key in old(keys)
        && var e := Ledger.Reserve(
                      r.key, old(keys)[r.key], ask.hash, ask.model, ask.estimate, ask.now, ask.expiresAt, id);
           Enabled(old(Contents()), e) && Contents() == Step(old(Contents()), e) && r.window == log[id].window
      ensures r.NotAdmitted? ==> Contents() == old(Contents())
      ensures r.NotAdmitted? && fault == NoFault ==> Explains(old(Contents()), ask, r.why)
    {
      if fault == At(0) {
        return NotAdmitted(Database);
      }
      if k :| k in keys && Transactions.Matches(Db(keys, budgets, log), ask, k) {
        var row := Reserved(budgets[k], ask.estimate, ask.now);
        if fault == At(1) {
          return NotAdmitted(Database);
        }
        var entry := NewReservation(k, row.window, ask.estimate, ask.expiresAt);
        if fault != NoFault {
          return NotAdmitted(Database);
        }
        budgets := budgets[k := row];
        log := log[id := entry];
        return Admitted(id, k, row.window);
      }
      if fault != NoFault {
        return NotAdmitted(Database);
      }
      var why := DiagnoseReserve(ask);
      return NotAdmitted(why);
    }

    /** The key has the credential and is not revoked, allows the model, and has room
        for the estimate, spending of an earlier month left aside. */
    static ghost predicate Fits(db: Db, ask: Transactions.Ask, k: KeyId) {
      && k in db.keys && k in db.budgets
      && db.keys[k].hash == ask.hash && !db.keys[k].revoked
      && (db.keys[k].allowed.None? || ask.model in db.keys[k].allowed.value)
      && var b := db.budgets[k];
         b.limit.None? || RoomTaken(b, ask.now) as real + ask.estimate <= b.limit.value as real
    }

    static ghost function RoomTaken(b: Budget, now: Month): int {
      b.reserved + if b.window < now then 0 else b.spent
    }

    /** The refusals in their order: no such key, a revoked one, one that does not allow
        the model, and only then one without room. The amounts are those stored, which
        may be of a window that is over. */
    static ghost predicate Explains(db: Db, ask: Transactions.Ask, why: Refusal) {
      && (why == KeyNotFound <==> forall k :: k in db.keys ==> db.keys[k].hash != ask.hash)
      && forall k :: k in db.keys && k in db.budgets && db.keys[k].hash == ask.hash ==>
           if db.keys[k].revoked then why == KeyRevoked
           else if db.keys[k].allowed.Some? && ask.model !in db.keys[k].allowed.value then why == ModelNotAllowed
           else
             && why == BudgetExceeded(db.budgets[k].limit, db.budgets[k].spent, db.budgets[k].reserved)
             && !Fits(db, ask, k)
    }

    method DiagnoseReserve(ask: Transactions.Ask) returns (why: Refusal)
      requires Constrained(Contents())
      requires forall k :: k in keys ==> !Transactions.Matches(Contents(), ask, k)
      ensures Explains(Contents(), ask, why)
    {
      if k :| k in keys && keys[k].hash == ask.hash {
        if keys[k].revoked {
          return KeyRevoked;
        }
        if keys[k].allowed.Some? && ask.model !in keys[k].allowed.value {
          return ModelNotAllowed;
        }
        assert Allows(keys[k], ask.hash, ask.model);
        return BudgetExceeded(budgets[k].limit, budgets[k].spent, budgets[k].reserved);
      }
      return KeyNotFound;
    }

    // ----- Settle ----------------------------------------------------------

    method Settle(id: ResId, cost: Usd, fault: Fault) returns (r: SettleResult)
      requires Constrained(Contents())
      modifies this
      ensures r.Ran? <==> fault == NoFault
      ensures r.Ran? ==> Contents() == Settlement(old(Contents()), id, cost)
      ensures r.Ran? ==> (r.applied <==> id in old(log) && old(log)[id].state != Settled)
      ensures r.Ran? && r.applied ==>
        && r.estimated == old(log)[id].estimated && r.window == old(log)[id].window
        && r.overshoot == (cost > old(log)[id].estimated as real)
        && r.afterExpiry == (old(log)[id].state == Expired)
      ensures r.NotSettled? ==> Contents() == old(Contents())
    {
      if fault == At(0) {
        return NotSettled;
      }
      hide Settlement, Settles, Charged, Closed, Constrained, Quantise;
      SettledParts(Contents(), id, cost);
      if !(id in log && Open(log[id])) {
        return if fault == NoFault then Ran(false, false, false, 0, 0) else NotSettled;
      }
      var entry := Closed(log[id], cost);
      var b := budgets[entry.key];
      var row := b.(
        reserved := b.reserved - (if entry.settledAfterExpiry then 0 else entry.estimated),
        spent := if b.window == entry.window then Quantise(b.spent as real + cost) else b.spent);
      if fault != NoFault {
        return NotSettled;
      }
      log := log[id := entry];
      budgets := budgets[entry.key := row];
      return Ran(true, entry.overshoot, entry.settledAfterExpiry, entry.estimated, entry.window);
    }

    // ----- ReapExpired -----------------------------------------------------

    /** SELECT .. WHERE pending and expired ORDER BY expires_at LIMIT .. */
    method SelectExpired(at: Instant, batch: nat) returns (claims: seq<ResId>)
      ensures SweepOf(Contents(), at, batch, claims)
    {
      claims := [];
      var left := set id | id in log && Overdue(log[id], at);
      while left != {} && |claims| < batch
        invariant |claims| <= batch && Distinct(claims)
        invariant forall id :: id in claims ==> id in log && Overdue(log[id], at) && id !in left
        invariant forall id :: id in left ==> id in log && Overdue(log[id], at)
        invariant forall id :: id in log && Overdue(log[id], at) ==> id in claims || id in left
        invariant forall c, id :: c in claims && id in left ==> log[c].expiresAt <= log[id].expiresAt
        decreases left
      {
        var id := Soonest(left);
        assert forall i :: 0 <= i < |claims| ==> claims[i] in claims;
        claims := claims + [id];
        left := left - {id};
      }
    }

    method Soonest(left: set<ResId>) returns (id: ResId)
      requires left != {} && forall x :: x in left ==> x in log
      ensures id in left && forall x :: x in left ==> log[id].expiresAt <= log[x].expiresAt
    {
      id :| id in left;
      var rest := left - {id};
      while rest != {}
        invariant id in left && rest <= left
        invariant forall x :: x in left && x !in rest ==> log[id].expiresAt <= log[x].expiresAt
        decreases rest
      {
        var x :| x in rest;
        if log[x].expiresAt < log[id].expiresAt {
          id := x;
        }
        rest := rest - {x};
      }
    }

    /** Sum per key of what the claims hold. */
    method SumPerKey(claims: seq<ResId>) returns (totals: map<KeyId, nat>)
      requires forall id :: id in claims ==> id in log
      ensures totals == Transactions.Totals(log, claims)
    {
      hide Transactions.Totals, Claimed;
      totals := map[];
      NothingTotalled(log);
      for i := 0 to |claims|
        invariant forall id :: id in claims[..i] ==> id in log
        invariant totals == Transactions.Totals(log, claims[..i])
      {
        var k := log[claims[i]].key;
        var sum := if k in totals then totals[k] else 0;
        TotalsGrow(log, claims[..i], claims[i]);
        assert claims[..i + 1] == claims[..i] + [claims[i]];
        totals := totals[k := sum + log[claims[i]].estimated];
      }
      assert claims[..|claims|] == claims;
    }

    method ReapOnce(at: Instant, batch: nat, fault: Fault) returns (ok: bool, reaped: nat, ghost claims: seq<ResId>)
      requires Constrained(Contents())
      modifies this
      ensures ok <==> fault == NoFault
      ensures ok ==> SweepOf(old(Contents()), at, batch, claims)
      ensures ok ==> Contents() == Sweep(old(Contents()), claims) && reaped == |claims|
      ensures ok && reaped < batch ==> forall id :: id in log && log[id].state == Pending ==> at <= log[id].expiresAt
      ensures !ok ==> Contents() == old(Contents())
    {
      hide Sweep, SweepOf, ExpireAll, Transactions.Totals, Constrained;
      var ids := SelectExpired(at, batch);
      claims := ids;
      if fault != NoFault {
        return false, 0, claims;
      }
      SweptParts(Contents(), at, batch, ids);
      if ids == [] {
        return true, 0, claims;
      }
      var totals := SumPerKey(ids);
      TotalsKnown(Contents(), ids);
      var rows := ReleasePerKey(totals);
      var entries := ExpireClaimed(ids);
      SweptRows(Contents(), ids, rows);
      budgets, log := rows, entries;
      return true, |ids|, claims;
    }

    /** UPDATE budget_reservations SET state = 'expired' .. AND state = 'pending' */
    method ExpireClaimed(ids: seq<ResId>) returns (entries: map<ResId, Reservation>)
      requires forall id :: id in ids ==> id in log && log[id].state == Pending
      ensures entries == ExpireAll(log, ids)
    {
      entries := map id | id in log ::
        if id in ids && log[id].state == Pending then log[id].(state := Expired) else log[id];
    }

    /** UPDATE key_budgets, once for each key, in any order. */
    method ReleasePerKey(totals: map<KeyId, nat>) returns (rows: map<KeyId, Budget>)
      requires totals.Keys <= budgets.Keys
      ensures rows.Keys == budgets.Keys
      ensures forall k :: k in rows ==>
        rows[k] == if k in totals then budgets[k].(reserved := budgets[k].reserved - totals[k]) else budgets[k]
    {
      rows := budgets;
      var left := totals.Keys;
      while left != {}
        invariant left <= totals.Keys && rows.Keys == budgets.Keys
        invariant forall k :: k in budgets ==>
          rows[k]
          == if k in totals.Keys - left then budgets[k].(reserved := budgets[k].reserved - totals[k]) else budgets[k]
        decreases left
      {
        var k :| k in left;
        rows := rows[k := rows[k].(reserved := rows[k].reserved - totals[k])];
        left := left - {k};
      }
    }

    // ----- keys ------------------------------------------------------------

    method UpdateLimit(k: KeyId, limit: Option<nat>) returns (found: bool)
      requires Constrained(Contents())
      modifies this`budgets
      ensures found == (k in old(keys))
      ensures Contents() == if found then Step(old(Contents()), SetLimit(k, limit)) else old(Contents())
    {
      found := k in keys;
      if found {
        budgets := budgets[k := budgets[k].(limit := limit)];
      }
    }

    method RevokeKey(k: KeyId) returns (found: bool)
      modifies this`keys
      ensures found == (k in old(keys))
      ensures Contents() == if found then Step(old(Contents()), Revoke(k)) else old(Contents())
    {
      found := k in keys;
      if found {
        keys := keys[k := keys[k].(revoked := true)];
      }
    }
  }

  /** What a settle reads and writes. */
  lemma SettledParts(db: Db, id: ResId, cost: Usd)
    requires Constrained(db)
    ensures Settles(db, id) <==> id in db.log && Open(db.log[id])
    ensures !Settles(db, id) ==> Settlement(db, id, cost) == db
    ensures Settles(db, id) ==>
      var r, entry := db.log[id], Closed(db.log[id], cost);
      && r.key in db.budgets && entry.key == r.key
      && entry.estimated == r.estimated && entry.window == r.window
      && entry.overshoot == (cost > r.estimated as real) && entry.settledAfterExpiry == (r.state == Expired)
      && var b := db.budgets[r.key];
         Settlement(db, id, cost)
         == Db(db.keys,
              db.budgets[r.key := b.(
                reserved := b.reserved - (if entry.settledAfterExpiry then 0 else r.estimated),
                spent := if b.window == r.window then Quantise(b.spent as real + cost) else b.spent)],
              db.log[id := entry])
  {
    hide Quantise;
  }

  // ----- lemmas about the reaper's loops -----------------------------------

  lemma TotalsGrow(log: map<ResId, Reservation>, claims: seq<ResId>, id: ResId)
    requires id in log && forall x :: x in claims ==> x in log
    ensures forall x :: x in claims + [id] ==> x in log
    ensures
      var totals := Transactions.Totals(log, claims);
      var k := log[id].key;
      Transactions.Totals(log, claims + [id])
        == totals[k := (if k in totals then totals[k] else 0) + log[id].estimated]
  {
    hide Claimed;
    var all, k := claims + [id], log[id].key;
    KeysGrow(log, claims, id);
    forall j | j in Transactions.Totals(log, all)
      ensures Claimed(log, all, j) == Claimed(log, claims, j) + if j == k then log[id].estimated else 0
    {
      ClaimedGrows(log, claims, id, j);
    }
    if k !in Transactions.Totals(log, claims) {
      ClaimedNothing(log, claims, k);
    }
  }

  lemma NothingTotalled(log: map<ResId, Reservation>)
    ensures Transactions.Totals(log, []) == map[]
  {
  }

  lemma ClaimedGrows(log: map<ResId, Reservation>, claims: seq<ResId>, id: ResId, k: KeyId)
    requires id in log && forall x :: x in claims ==> x in log
    ensures Claimed(log, claims + [id], k)
         == Claimed(log, claims, k) + if log[id].key == k then log[id].estimated else 0
  {
    assert (claims + [id])[..|claims + [id]| - 1] == claims;
  }

  lemma KeysGrow(log: map<ResId, Reservation>, claims: seq<ResId>, id: ResId)
    requires id in log && forall x :: x in claims ==> x in log
    ensures forall x :: x in claims + [id] ==> x in log
    ensures (set x | x in claims + [id] :: log[x].key) == (set x | x in claims :: log[x].key) + {log[id].key}
  {
    assert id in claims + [id];
    assert forall x :: x in claims ==> x in claims + [id];
  }

  lemma TotalsKnown(db: Db, claims: seq<ResId>)
    requires Constrained(db) && forall id :: id in claims ==> id in db.log
    ensures Transactions.Totals(db.log, claims).Keys <= db.budgets.Keys
  {
    forall k | k in Transactions.Totals(db.log, claims)
      ensures k in db.budgets
    {
      var id :| id in claims && db.log[id].key == k;
    }
  }

  lemma SweptParts(db: Db, at: Instant, batch: nat, claims: seq<ResId>)
    requires SweepOf(db, at, batch, claims)
    ensures forall id :: id in claims ==> id in db.log && db.log[id].state == Pending
    ensures Sweep(db, claims) == Db(db.keys, Sweep(db, claims).budgets, ExpireAll(db.log, claims))
    ensures Sweep(db, []) == db
    ensures |claims| < batch ==>
      forall id :: id in Sweep(db, claims).log && Sweep(db, claims).log[id].state == Pending ==>
        at <= Sweep(db, claims).log[id].expiresAt
  {
  }

  lemma SweptRows(db: Db, claims: seq<ResId>, rows: map<KeyId, Budget>)
    requires forall id :: id in claims ==> id in db.log
    requires rows.Keys == db.budgets.Keys
    requires var totals := Transactions.Totals(db.log, claims);
      forall k :: k in rows ==>
        rows[k] == if k in totals then db.budgets[k].(reserved := db.budgets[k].reserved - totals[k]) else db.budgets[k]
    ensures rows == Sweep(db, claims).budgets
  {
    var swept := Sweep(db, claims).budgets;
    forall k | k in rows
      ensures rows[k] == swept[k]
    {
      if k !in Transactions.Totals(db.log, claims) {
        ClaimedNothing(db.log, claims, k);
      }
    }
  }
}
