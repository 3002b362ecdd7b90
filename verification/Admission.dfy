/** What a reserve, a settle and a sweep do, in terms of the rows alone. */
module Admission {
  import opened Basics
  import opened Ledger
  import opened LedgerRuns
  import opened Transactions
  import opened Refinement
  import LedgerLimits
  import Store

  // ----- one step ----------------------------------------------------------

  /** A reserve is possible exactly for a key whose credential is the one given, that
      is not seen as revoked and allows the model, and whose limit, if it has one, has
      room for the estimate on top of what is reserved and of what was spent in the
      month: nothing, if the window of the balance is over. */
  lemma ReservePossibleExactly(db: Db, e: Event)
    requires e.Reserve? && e.key in db.budgets && e.key in db.keys && e.seen == db.keys[e.key] && e.id !in db.log
    ensures
      var row, b := db.keys[e.key], db.budgets[e.key];
      Enabled(db, e)
      <==> && row.hash == e.hash && !row.revoked && (row.allowed.Some? ==> e.model in row.allowed.value)
           && (b.limit.Some? ==>
                 (if b.window < e.now then 0 else b.spent) as real + b.reserved as real + e.estimate
                 <= b.limit.value as real)
  {
  }

  /** What it writes: the window moves on to the month, never back, the spending starts
      afresh if it does, the stored estimate is added to what is reserved, and the
      reservation keeps the estimate and the expiry it was asked with. */
  lemma ReserveWrites(db: Db, e: Event)
    requires Inv(db) && e.Reserve? && Enabled(db, e)
    ensures
      var db', b := Step(db, e), db.budgets[e.key];
      var window := if b.window < e.now then e.now else b.window;
      && db'.keys == db.keys
      && db'.budgets
           == db.budgets[e.key := Budget(window, b.limit, if b.window < e.now then 0 else b.spent,
                                    b.reserved + Quantise(e.estimate))]
      && db'.log
           == db.log[e.id := Reservation(e.key, window, Pending, Quantise(e.estimate), 0, e.expiresAt, false, false)]
  {
    hide Quantise, Admits, Allows, Inv;
    LedgerLimits.ReservedIsNat(db, e.key);
    QuantiseShift(db.budgets[e.key].reserved, e.estimate);
  }

  /** A new month makes room again: once nothing of the key is pending, a reserve in a
      later month fits exactly when its own estimate is within the limit, whatever was
      spent before. */
  lemma NewMonthMakesRoom(db: Db, e: Event)
    requires Inv(db) && e.Reserve? && e.key in db.keys && e.seen == db.keys[e.key] && e.id !in db.log
    requires
      var row := db.keys[e.key];
      row.hash == e.hash && !row.revoked && (row.allowed.Some? ==> e.model in row.allowed.value)
    requires forall id :: id in db.log && db.log[id].key == e.key ==> db.log[id].state != Pending
    requires e.key in db.budgets && db.budgets[e.key].window < e.now && db.budgets[e.key].limit.Some?
    ensures Enabled(db, e) <==> e.estimate <= db.budgets[e.key].limit.value as real
  {
    hide Total, Enabled;
    assert Balanced(db, e.key);
    TotalZero(db.log, PendingOf(e.key));
    ReservePossibleExactly(db, e);
  }

  /** A settle closes a reservation that is not settled yet, pending or expired alike, at
      the stored cost; it gives back the estimate unless the sweep has done so, and
      counts as spending only in the window that the balance is still in. */
  lemma SettleWrites(db: Db, id: ResId, cost: Usd)
    requires Inv(db)
    ensures id !in db.log || db.log[id].state == Settled ==> Settlement(db, id, cost) == db
    ensures id in db.log && db.log[id].state != Settled ==>
      var db', r := Settlement(db, id, cost), db.log[id];
      && r.key in db.budgets
      && var b := db.budgets[r.key];
         && db'.keys == db.keys
         && db'.budgets
              == db.budgets[r.key := Budget(b.window, b.limit,
                                       if r.window == b.window then b.spent + Quantise(cost) else b.spent,
                                       if r.state == Pending then b.reserved - r.estimated else b.reserved)]
         && db'.log
              == db.log[id := Reservation(r.key, r.window, Settled, r.estimated, Quantise(cost), r.expiresAt,
                                cost > r.estimated as real, r.state == Expired)]
  {
    hide Quantise, Balanced;
    if id in db.log && db.log[id].state != Settled {
      QuantiseShift(db.budgets[db.log[id].key].spent, cost);
    }
  }

  /** A sweep takes pending reservations past their expiry and changes nothing of any
      other. */
  lemma SweepWrites(db: Db, ids: seq<ResId>, at: Instant)
    requires Enabled(db, Reap(ids, at))
    ensures forall id :: id in ids ==> id in db.log && db.log[id].state == Pending && db.log[id].expiresAt < at
    ensures
      var db' := Step(db, Reap(ids, at));
      && db'.keys == db.keys && db'.log.Keys == db.log.Keys
      && forall id :: id in db.log ==>
           db'.log[id] == if id in ids then db.log[id].(state := Expired) else db.log[id]
  {
    hide Claimed;
  }

  /** Such a reservation is left only by a sweep whose batch is full, of reservations
      that expired no later. */
  lemma SweepLeavesNothingOverdue(db: Db, at: Instant, batch: nat, claims: seq<ResId>)
    requires Store.SweepOf(db, at, batch, claims)
    ensures |claims| <= batch
    ensures
      var db' := Step(db, Reap(claims, at));
      forall id :: id in db'.log && db'.log[id].state == Pending && db'.log[id].expiresAt < at ==>
        |claims| == batch && forall c :: c in claims ==> db.log[c].expiresAt <= db'.log[id].expiresAt
  {
    SweepWrites(db, claims, at);
  }

  /** The administrative steps write one row each, or the two of a new key. */
  lemma AdministrationWrites(db: Db, e: Event)
    requires Enabled(db, e)
    ensures e.CreateKey? ==>
      Step(db, e) == Db(db.keys[e.key := e.row], db.budgets[e.key := Budget(e.month, e.limit, 0, 0)], db.log)
    ensures e.SetLimit? ==>
      var b := db.budgets[e.key];
      Step(db, e) == Db(db.keys, db.budgets[e.key := Budget(b.window, e.limit, b.spent, b.reserved)], db.log)
    ensures e.Revoke? ==>
      var row := db.keys[e.key];
      Step(db, e) == Db(db.keys[e.key := KeyRow(row.hash, true, row.allowed)], db.budgets, db.log)
  {
  }

  // ----- runs --------------------------------------------------------------

  /** No event changes the terms of a reservation: its key, window, estimate and
      expiry; and none changes a key but by revoking it. */
  lemma StepKeepsTerms(db: Db, e: Event)
    requires Enabled(db, e)
    ensures forall id :: id in db.log ==> id in Step(db, e).log && SameTerms(db.log[id], Step(db, e).log[id])
    ensures forall k :: k in db.keys ==> k in Step(db, e).keys && SameKey(db.keys[k], Step(db, e).keys[k])
  {
    hide Claimed, Quantise, Admits, Allows, Charged;
  }

  predicate SameTerms(a: Reservation, b: Reservation) {
    a.key == b.key && a.window == b.window && a.estimated == b.estimated && a.expiresAt == b.expiresAt
  }

  predicate SameKey(a: KeyRow, b: KeyRow) {
    a.hash == b.hash && a.allowed == b.allowed && (a.revoked ==> b.revoked)
  }

  lemma {:induction false} RunKeepsTerms(db: Db, es: seq<Event>)
    requires Possible(db, es)
    ensures forall id :: id in db.log ==> id in Run(db, es).log && SameTerms(db.log[id], Run(db, es).log[id])
    ensures forall k :: k in db.keys ==> k in Run(db, es).keys && SameKey(db.keys[k], Run(db, es).keys[k])
    decreases |es|
  {
    hide Enabled, Step;
    if es != [] {
      StepKeepsTerms(db, es[0]);
      RunKeepsTerms(Step(db, es[0]), es[1..]);
    }
  }

  /** The reserve was made with the credential of its key, as it then was, for a model
      that the key allows. */
  predicate Authenticated(e: Event) {
    && e.Reserve? && e.seen.hash == e.hash && !e.seen.revoked
    && (e.seen.allowed.Some? ==> e.model in e.seen.allowed.value)
  }

  lemma ReserveIsAuthenticated(db: Db, e: Event)
    requires e.Reserve? && Enabled(db, e)
    ensures Authenticated(e) && e.key in db.keys
    ensures db.keys[e.key].hash == e.seen.hash && db.keys[e.key].allowed == e.seen.allowed
  {
  }

  lemma {:induction false} RunIsAuthenticated(db: Db, es: seq<Event>, i: nat)
    requires Possible(db, es) && i < |es| && es[i].Reserve?
    ensures Authenticated(es[i]) && es[i].key in Run(db, es).keys
    ensures
      var row := Run(db, es).keys[es[i].key];
      row.hash == es[i].hash && row.allowed == es[i].seen.allowed
    decreases |es|
  {
    hide Enabled, Step;
    if i == 0 {
      ReserveIsAuthenticated(db, es[0]);
      RunKeepsTerms(db, es);
    } else {
      RunIsAuthenticated(Step(db, es[0]), es[1..], i - 1);
    }
  }

  /** So in every interleaving of statements: whatever reserve commits gave the
      credential of a key that was not revoked when it looked, and a model that the
      key allows; and that key has that credential still. */
  lemma CommittedReservesAreAuthenticated(s: Sys, es: seq<Action>, i: nat)
    requires SysInv(s) && CanPlay(s, es) && i < |CommitOrder(s, es)| && CommitOrder(s, es)[i].Reserve?
    ensures
      var e := CommitOrder(s, es)[i];
      && Authenticated(e) && e.key in Play(s, es).db.keys
      && Play(s, es).db.keys[e.key].hash == e.hash && Play(s, es).db.keys[e.key].allowed == e.seen.allowed
  {
    hide Play, CommitOrder, CanPlay, SysInv;
    RunRefines(s, es);
    RunIsAuthenticated(s.db, CommitOrder(s, es), i);
  }

  // ----- what was asked ----------------------------------------------------

  /** What a transaction was begun for. */
  datatype Request =
    | ToReserve(ask: Ask)
    | ToSettle(id: ResId, cost: Usd)
    | ToReap(at: Instant)
    | ToLimit(key: KeyId, limit: Option<nat>)
    | Ended

  function RequestOf(tx: Tx): Request {
    match tx
    case ReserveBegun(ask) => ToReserve(ask)
    case ReserveFound(ask, _, _) => ToReserve(ask)
    case ReserveUpdated(ask, _, _, _) => ToReserve(ask)
    case ReserveInserted(ask, _, _, _, _, _) => ToReserve(ask)
    case SettleBegun(id, cost) => ToSettle(id, cost)
    case SettleFound(id, cost) => ToSettle(id, cost)
    case SettleMarked(id, cost, _, _) => ToSettle(id, cost)
    case SettleApplied(id, cost, _, _, _) => ToSettle(id, cost)
    case ReapClaiming(at, _, _) => ToReap(at)
    case ReapLocking(at, _, _, _) => ToReap(at)
    case ReapReleasing(at, _, _, _, _) => ToReap(at)
    case UpdateBegun(k, limit) => ToLimit(k, limit)
    case UpdateLocked(k, limit) => ToLimit(k, limit)
    case UpdateApplied(k, limit, _) => ToLimit(k, limit)
    case Nothing => Ended
  }

  /** The event does what the request asks for. */
  predicate Answers(e: Event, r: Request) {
    match e
    case Reserve(_, _, hash, model, estimate, now, expiresAt, _) =>
      r == ToReserve(Ask(hash, model, estimate, now, expiresAt))
    case Settle(id, cost) => r == ToSettle(id, cost)
    case Reap(_, at) => r == ToReap(at)
    case SetLimit(k, limit) => r == ToLimit(k, limit)
    case _ => false
  }

  /** The request was being served already, or is begun in the run. */
  ghost predicate Asked(s: Sys, es: seq<Action>, r: Request) {
    || (exists t :: t in s.txs && RequestOf(s.txs[t]) == r)
    || (exists a :: a in es && a.Begin? && RequestOf(a.tx) == r)
  }

  lemma StepServes(s: Sys, a: Action, t: TxId)
    requires Allowed(s, a) && t in Act(s, a).txs && RequestOf(Act(s, a).txs[t]) != Ended
    ensures Asked(s, [a], RequestOf(Act(s, a).txs[t]))
  {
    hide Matches, Settles, Admits, Reserved, Totals, ExpiredRows, Closed, Ledger.Charged, NextKey, Asked;
    if a.Begin? && a.t == t {
      AskedNow(s, a);
    } else {
      assert RequestOf(s.txs[t]) == RequestOf(Act(s, a).txs[t]);
      AskedBefore(s, [a], t);
    }
  }

  lemma AskedNow(s: Sys, a: Action)
    requires a.Begin?
    ensures Asked(s, [a], RequestOf(a.tx))
  {
    assert a in [a];
  }

  lemma AskedBefore(s: Sys, es: seq<Action>, t: TxId)
    requires t in s.txs
    ensures Asked(s, es, RequestOf(s.txs[t]))
  {
  }

  lemma CommitAnswers(tx: Tx)
    requires Atomic(tx).Some?
    ensures Answers(Atomic(tx).value, RequestOf(tx))
  {
  }

  lemma AskedLater(s: Sys, a: Action, rest: seq<Action>, r: Request)
    requires Allowed(s, a) && Asked(Act(s, a), rest, r) && r != Ended
    ensures Asked(s, [a] + rest, r)
  {
    hide Act, Allowed, RequestOf;
    var s' := Act(s, a);
    if t :| t in s'.txs && RequestOf(s'.txs[t]) == r {
      StepServes(s, a, t);
      if x :| x in [a] && x.Begin? && RequestOf(x.tx) == r {
        assert x in [a] + rest;
      }
    } else {
      var x :| x in rest && x.Begin? && RequestOf(x.tx) == r;
      assert x in [a] + rest;
    }
  }

  /** Whatever commits is what some transaction was begun for: the credential, model,
      estimate, month and expiry of a reserve, the reservation and cost of a settle, the
      instant of a sweep, the key and limit of a change. */
  lemma {:induction false} CommitsAreAsked(s: Sys, es: seq<Action>, i: nat)
    requires CanPlay(s, es) && i < |CommitOrder(s, es)|
    ensures
      var e := CommitOrder(s, es)[i];
      && (e.CreateKey? || e.Revoke? ==> Administer(e) in es)
      && (!e.CreateKey? && !e.Revoke? ==> exists r :: Answers(e, r) && Asked(s, es, r))
    decreases |es|
  {
    hide Act, Allowed, Commits, Atomic, RequestOf, Asked, Answers;
    var a, rest := es[0], es[1..];
    assert es == [a] + rest;
    var now := |Commits(s, a)|;
    if i < now {
      FirstCommit(s, a, rest);
    } else {
      CommitsAreAsked(Act(s, a), rest, i - now);
      var e := CommitOrder(s, es)[i];
      if !e.CreateKey? && !e.Revoke? {
        var r :| Answers(e, r) && Asked(Act(s, a), rest, r);
        NotEnded(e, r);
        AskedLater(s, a, rest, r);
      }
    }
  }

  lemma NotEnded(e: Event, r: Request)
    requires Answers(e, r)
    ensures r != Ended
  {
  }

  lemma FirstCommit(s: Sys, a: Action, rest: seq<Action>)
    requires Allowed(s, a) && Commits(s, a) != []
    ensures |Commits(s, a)| == 1
    ensures
      var e := Commits(s, a)[0];
      && (e.CreateKey? || e.Revoke? ==> Administer(e) in [a] + rest)
      && (!e.CreateKey? && !e.Revoke? ==> exists r :: Answers(e, r) && Asked(s, [a] + rest, r))
  {
    hide Finished, RequestOf, Answers, Asked;
    if a.Commit? {
      CommitAnswers(s.txs[a.t]);
      AskedBefore(s, [a] + rest, a.t);
      AtomicIsNoAdministration(s.txs[a.t]);
    } else {
      assert a in [a] + rest;
    }
  }

  lemma AtomicIsNoAdministration(tx: Tx)
    requires Atomic(tx).Some?
    ensures !Atomic(tx).value.CreateKey? && !Atomic(tx).value.Revoke?
  {
  }

  // ----- a key row under lock ----------------------------------------------

  /** A limit change that holds the row of a key, up to its end, keeps out every other
      limit change of the key and every reserve that has inserted for it. */
  ghost predicate KeysApart(s: Sys) {
    forall t, u :: t in s.txs && u in s.txs && t != u && (s.txs[t].UpdateLocked? || s.txs[t].UpdateApplied?) ==>
      && (s.txs[u].UpdateLocked? || s.txs[u].UpdateApplied? ==> s.txs[u].key != s.txs[t].key)
      && (s.txs[u].ReserveInserted? ==> s.txs[u].key != s.txs[t].key)
  }

  /** What a statement does to the holds on key rows. */
  lemma HoldsOf(s: Sys, t: TxId, tx: Tx, stmt: Statement)
    requires CanExecute(s, t, tx, stmt)
    ensures
      var tx' := Executed(s, t, tx, stmt);
      && (tx'.UpdateLocked? <==> stmt.LockKey?) && (tx'.UpdateApplied? <==> stmt.WriteLimit?)
      && (tx'.ReserveInserted? <==> stmt.InsertReservation?)
      && (stmt.LockKey? ==>
            tx.UpdateBegun? && tx'.key == tx.key && KeyUnlocked(s, t, tx.key) && KeyUnshared(s, t, tx.key))
      && (stmt.WriteLimit? ==> tx.UpdateLocked? && tx'.key == tx.key)
      && (stmt.InsertReservation? ==> tx'.key == tx.key && KeyUnlocked(s, t, tx.key))
  {
    hide Matches, Settles, Admits, Reserved, Totals, ExpiredRows, Closed, Ledger.Charged, NextKey;
    hide BudgetFree, RowFree, NewReservation, KeyUnlocked, KeyUnshared;
  }

  lemma StepKeepsApart(s: Sys, a: Action)
    requires KeysApart(s) && Allowed(s, a)
    ensures KeysApart(Act(s, a))
  {
    hide CanExecute, Executed, Refused, Finished, MayAdminister, Installed, Ledger.Step;
    if a.Execute? {
      HoldsOf(s, a.t, s.txs[a.t], a.stmt);
    }
  }

  lemma {:induction false} RunKeepsApart(s: Sys, es: seq<Action>)
    requires KeysApart(s) && CanPlay(s, es)
    ensures KeysApart(Play(s, es))
    decreases |es|
  {
    hide Act, Allowed, KeysApart;
    if es != [] {
      StepKeepsApart(s, es[0]);
      RunKeepsApart(Act(s, es[0]), es[1..]);
    }
  }

  /** And nobody changes the row it holds. */
  lemma LockedKeyStays(s: Sys, a: Action, t: TxId)
    requires t in s.txs && (s.txs[t].UpdateLocked? || s.txs[t].UpdateApplied?) && Allowed(s, a)
    requires s.txs[t].key in s.db.keys
    ensures s.txs[t].key in Act(s, a).db.keys && Act(s, a).db.keys[s.txs[t].key] == s.db.keys[s.txs[t].key]
  {
    hide CanExecute, Refused, Finished;
  }

  // ----- refusals ----------------------------------------------------------

  /** A reserve is refused only if no key fits it when it looks, or if the balance row,
      which it finds free when it looks again, has no room any more. */
  lemma RefusedOnlyWithout(s: Sys, t: TxId, k: KeyId)
    requires Allowed(s, Refuse(t)) && k in s.db.keys && k in s.db.budgets
    requires s.txs[t].ReserveBegun? || (s.txs[t].ReserveFound? && s.txs[t].key == k)
    ensures
      var ask, row, b := s.txs[t].ask, s.db.keys[k], s.db.budgets[k];
      var taken := b.reserved + if b.window < ask.now then 0 else b.spent;
      var full := b.limit.Some? && taken as real + ask.estimate > b.limit.value as real;
      && (s.txs[t].ReserveBegun? ==>
            row.hash != ask.hash || row.revoked || (row.allowed.Some? && ask.model !in row.allowed.value) || full)
      && (s.txs[t].ReserveFound? ==> full)
  {
  }
}
