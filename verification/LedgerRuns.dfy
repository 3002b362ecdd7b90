/** What every run of the atomic ledger keeps. */
module LedgerRuns {
  import opened Basics
  import opened Ledger

  // ----- runs --------------------------------------------------------------

  ghost predicate Possible(db: Db, es: seq<Event>)
    decreases |es|
  {
    es == [] || (Enabled(db, es[0]) && Possible(Step(db, es[0]), es[1..]))
  }

  ghost function Run(db: Db, es: seq<Event>): Db
    requires Possible(db, es)
    decreases |es|
  {
    if es == [] then db else Run(Step(db, es[0]), es[1..])
  }

  lemma {:induction false} RunAppend(db: Db, es: seq<Event>, fs: seq<Event>)
    requires Possible(db, es) && Possible(Run(db, es), fs)
    ensures Possible(db, es + fs) && Run(db, es + fs) == Run(Run(db, es), fs)
    decreases |es|
  {
    hide *;
    if es == [] {
      RunsOfNone(db);
      assert es + fs == fs;
    } else {
      FirstEvent(db, es);
      RunAppend(Step(db, es[0]), es[1..], fs);
      assert (es + fs)[0] == es[0] && (es + fs)[1..] == es[1..] + fs;
      FirstEvent(db, es + fs);
    }
  }

  lemma RunsOfNone(db: Db)
    ensures Possible(db, []) && Run(db, []) == db
  {
  }

  lemma FirstEvent(db: Db, es: seq<Event>)
    requires es != []
    ensures Possible(db, es) <==> Enabled(db, es[0]) && Possible(Step(db, es[0]), es[1..])
    ensures Possible(db, es) ==> Run(db, es) == Run(Step(db, es[0]), es[1..])
  {
    hide Enabled, Step;
  }

  // ----- the balance is the log --------------------------------------------

  lemma ReserveKeepsInv(db: Db, e: Event)
    requires Inv(db) && e.Reserve? && Enabled(db, e)
    ensures Inv(Step(db, e))
  {
    hide Total, Balanced, Quantise;
    var db' := Step(db, e);
    forall k | k in db'.budgets
      ensures Balanced(db', k) && 0 <= db'.budgets[k].reserved && 0 <= db'.budgets[k].spent
    {
      if k == e.key {
        ReserveBalances(db, e);
      } else {
        ReserveSpares(db, e, k);
      }
    }
  }

  lemma ReserveSpares(db: Db, e: Event, k: KeyId)
    requires Inv(db) && e.Reserve? && Enabled(db, e) && k in db.budgets && k != e.key
    ensures Balanced(Step(db, e), k) && Step(db, e).budgets[k] == db.budgets[k]
  {
    var r := NewReservation(e.key, Max(db.budgets[e.key].window, e.now), e.estimate, e.expiresAt);
    assert Balanced(db, k);
    TotalWrite(db.log, PendingOf(k), e.id, r);
    TotalWrite(db.log, SettledIn(k, db.budgets[k].window), e.id, r);
  }

  lemma ReserveBalances(db: Db, e: Event)
    requires Inv(db) && e.Reserve? && Enabled(db, e)
    ensures Balanced(Step(db, e), e.key)
    ensures 0 <= Step(db, e).budgets[e.key].reserved && 0 <= Step(db, e).budgets[e.key].spent
  {
    var b := db.budgets[e.key];
    var r := NewReservation(e.key, Max(b.window, e.now), e.estimate, e.expiresAt);
    assert Balanced(db, e.key);
    QuantiseShift(b.reserved, e.estimate);
    TotalWrite(db.log, PendingOf(e.key), e.id, r);
    TotalWrite(db.log, SettledIn(e.key, Max(b.window, e.now)), e.id, r);
    if b.window < e.now {
      TotalZero(db.log, SettledIn(e.key, e.now));
    }
  }

  lemma SettleKeepsInv(db: Db, id: ResId, cost: Usd)
    requires Inv(db)
    ensures Inv(Settlement(db, id, cost))
  {
    if Settles(db, id) {
      var db' := Settlement(db, id, cost);
      var r := db.log[id];
      forall k | k in db'.budgets
        ensures Balanced(db', k) && 0 <= db'.budgets[k].reserved && 0 <= db'.budgets[k].spent
      {
        SettleBalances(db, id, cost, k);
      }
    }
  }

  lemma CloseTotals(log: map<ResId, Reservation>, id: ResId, cost: Usd, k: KeyId, w: Month)
    requires id in log && Open(log[id])
    ensures Total(log[id := Closed(log[id], cost)], PendingOf(k))
         == Total(log, PendingOf(k)) - (if log[id].key == k && log[id].state == Pending then log[id].estimated else 0)
    ensures Total(log[id := Closed(log[id], cost)], SettledIn(k, w))
         == Total(log, SettledIn(k, w)) + (if log[id].key == k && log[id].window == w then Quantise(cost) else 0)
  {
    TotalWrite(log, PendingOf(k), id, Closed(log[id], cost));
    TotalWrite(log, SettledIn(k, w), id, Closed(log[id], cost));
  }

  lemma SettleBalances(db: Db, id: ResId, cost: Usd, k: KeyId)
    requires Inv(db) && Settles(db, id) && k in db.budgets
    ensures k in Settlement(db, id, cost).budgets && Balanced(Settlement(db, id, cost), k)
    ensures 0 <= Settlement(db, id, cost).budgets[k].reserved && 0 <= Settlement(db, id, cost).budgets[k].spent
  {
    hide PendingOf, SettledIn, Total, Quantise;
    assert Balanced(db, k);
    QuantiseShift(db.budgets[k].spent, cost);
    TotalsNonNegative(Settlement(db, id, cost).log, k, db.budgets[k].window);
    CloseTotals(db.log, id, cost, k, db.budgets[k].window);
  }

  lemma ExpireAllSnoc(log: map<ResId, Reservation>, front: seq<ResId>, last: ResId)
    requires last in log && last !in front
    ensures last in ExpireAll(log, front) && ExpireAll(log, front)[last] == log[last]
    ensures ExpireAll(log, front + [last]) == ExpireAll(log, front)[last := log[last].(state := Expired)]
  {
  }

  lemma ExpireOneTotals(log: map<ResId, Reservation>, id: ResId, k: KeyId, w: Month)
    requires id in log && log[id].state == Pending
    ensures Total(log[id := log[id].(state := Expired)], PendingOf(k))
         == Total(log, PendingOf(k)) - (if log[id].key == k then log[id].estimated else 0)
    ensures Total(log[id := log[id].(state := Expired)], SettledIn(k, w)) == Total(log, SettledIn(k, w))
  {
    TotalWrite(log, PendingOf(k), id, log[id].(state := Expired));
    TotalWrite(log, SettledIn(k, w), id, log[id].(state := Expired));
  }

  lemma {:induction false} ExpireAllTotals(log: map<ResId, Reservation>, ids: seq<ResId>, k: KeyId, w: Month)
    requires Distinct(ids)
    requires forall id :: id in ids ==> id in log && log[id].state == Pending
    ensures Total(ExpireAll(log, ids), PendingOf(k)) == Total(log, PendingOf(k)) - Claimed(log, ids, k)
    ensures Total(ExpireAll(log, ids), SettledIn(k, w)) == Total(log, SettledIn(k, w))
  {
    if ids == [] {
      assert ExpireAll(log, ids) == log;
    } else {
      hide ExpireAll, Total, PendingOf, SettledIn;
      var front, last := ids[..|ids| - 1], ids[|ids| - 1];
      ExpireAllTotals(log, front, k, w);
      var mid := ExpireAll(log, front);
      assert last !in front;
      ExpireAllSnoc(log, front, last);
      assert ids == front + [last];
      ExpireOneTotals(mid, last, k, w);
    }
  }

  lemma SweepShape(db: Db, ids: seq<ResId>)
    requires forall id :: id in ids ==> id in db.log
    ensures var db' := Sweep(db, ids);
      && db'.keys == db.keys && db'.budgets.Keys == db.budgets.Keys && db'.log.Keys == db.log.Keys
      && (forall k :: k in db.budgets ==>
            && db'.budgets[k].window == db.budgets[k].window
            && db'.budgets[k].limit == db.budgets[k].limit
            && db'.budgets[k].spent == db.budgets[k].spent
            && db'.budgets[k].reserved == db.budgets[k].reserved - Claimed(db.log, ids, k))
      && (forall id :: id in db.log ==>
            db'.log[id].key == db.log[id].key && db'.log[id].window == db.log[id].window)
  {
  }

  lemma SweepKeepsBalance(db: Db, ids: seq<ResId>, at: Instant, db': Db, k: KeyId)
    requires Inv(db) && Enabled(db, Reap(ids, at)) && k in db.budgets && db' == Sweep(db, ids)
    ensures k in db'.budgets && Balanced(db', k) && 0 <= db'.budgets[k].reserved && 0 <= db'.budgets[k].spent
  {
    assert Balanced(db, k);
    ExpireAllTotals(db.log, ids, k, db.budgets[k].window);
    TotalsNonNegative(db'.log, k, db.budgets[k].window);
  }

  lemma SweepKeepsInv(db: Db, ids: seq<ResId>, at: Instant)
    requires Inv(db) && Enabled(db, Reap(ids, at))
    ensures Inv(Sweep(db, ids))
  {
    var db' := Sweep(db, ids);
    SweepShape(db, ids);
    forall k | k in db'.budgets
      ensures Balanced(db', k) && 0 <= db'.budgets[k].reserved && 0 <= db'.budgets[k].spent
    {
      SweepKeepsBalance(db, ids, at, db', k);
    }
  }

  lemma NewKeyOwesNothing(db: Db, k: KeyId, month: Month)
    requires Inv(db) && k !in db.budgets
    ensures Total(db.log, PendingOf(k)) == Total(db.log, SettledIn(k, month)) == 0
  {
    TotalZero(db.log, PendingOf(k));
    TotalZero(db.log, SettledIn(k, month));
  }

  lemma CreateKeyKeepsInv(db: Db, e: Event)
    requires Inv(db) && e.CreateKey? && Enabled(db, e)
    ensures Inv(Step(db, e))
  {
    hide Total, PendingOf, SettledIn;
    NewKeyOwesNothing(db, e.key, e.month);
    var db' := Step(db, e);
    forall k | k in db'.budgets
      ensures Balanced(db', k) && 0 <= db'.budgets[k].reserved && 0 <= db'.budgets[k].spent
    {
      if k != e.key {
        assert Balanced(db, k);
      }
    }
  }

  /** Steps that move no money. */
  lemma AdministrationKeepsInv(db: Db, e: Event)
    requires Inv(db) && (e.SetLimit? || e.Revoke?) && Enabled(db, e)
    ensures Inv(Step(db, e))
  {
    hide Total, PendingOf, SettledIn;
    var db' := Step(db, e);
    forall k | k in db'.budgets
      ensures Balanced(db', k) && 0 <= db'.budgets[k].reserved && 0 <= db'.budgets[k].spent
    {
      assert Balanced(db, k);
    }
  }

  lemma StepKeepsInv(db: Db, e: Event)
    requires Inv(db) && Enabled(db, e)
    ensures Inv(Step(db, e))
  {
    match e
    case CreateKey(_, _, _, _) => CreateKeyKeepsInv(db, e);
    case SetLimit(_, _) => AdministrationKeepsInv(db, e);
    case Revoke(_) => AdministrationKeepsInv(db, e);
    case Reserve(_, _, _, _, _, _, _, _) => ReserveKeepsInv(db, e);
    case Settle(id, cost) => SettleKeepsInv(db, id, cost);
    case Reap(ids, at) => SweepKeepsInv(db, ids, at);
  }

  /** In every reachable state, under any clock, the balance of every key equals
      what the log says and no reservation is of a later window than its key. */
  lemma {:induction false} RunKeepsInv(db: Db, es: seq<Event>)
    requires Inv(db) && Possible(db, es)
    ensures Inv(Run(db, es))
    decreases |es|
  {
    if es != [] {
      StepKeepsInv(db, es[0]);
      RunKeepsInv(Step(db, es[0]), es[1..]);
    }
  }
}
