/** How far a limit can be exceeded, how often a reservation can move money, and
    that a settle and a sweep do not care which of them comes first. */
module LedgerLimits {
  import opened Basics
  import opened Ledger
  import opened LedgerRuns

  // ----- the limit ---------------------------------------------------------

  /** What one step adds to the committed amount of `k` beyond what an admitted
      reserve had already set aside for it. */
  function Overrun(db: Db, e: Event, k: KeyId): nat {
    if e.Settle? && Settles(db, e.id) && k in db.budgets &&
       db.log[e.id].key == k && db.log[e.id].window == db.budgets[k].window
    then
      var r := db.log[e.id];
      if r.state == Expired then Quantise(e.cost) else Max(0, Quantise(e.cost) - r.estimated)
    else 0
  }

  ghost function Overruns(db: Db, es: seq<Event>, k: KeyId): nat
    requires Possible(db, es)
    decreases |es|
  {
    if es == [] then 0 else Overrun(db, es[0], k) + Overruns(Step(db, es[0]), es[1..], k)
  }

  ghost predicate NoReserve(es: seq<Event>, k: KeyId) {
    forall e :: e in es && e.Reserve? ==> e.key != k
  }

  function Committed(b: Budget): int {
    b.spent + b.reserved
  }

  lemma StepStaysWithin(db: Db, e: Event, k: KeyId)
    requires Inv(db) && Enabled(db, e) && k in db.budgets
    requires !(e.Reserve? && e.key == k)
    ensures k in Step(db, e).budgets
    ensures Committed(Step(db, e).budgets[k]) <= Committed(db.budgets[k]) + Overrun(db, e, k)
  {
    hide *;
    StepMoves(db, e, k);
  }

  lemma RunStaysWithin(db: Db, es: seq<Event>, k: KeyId)
    requires Inv(db) && Possible(db, es) && k in db.budgets && NoReserve(es, k)
    ensures k in Run(db, es).budgets
    ensures Committed(Run(db, es).budgets[k]) <= Committed(db.budgets[k]) + Overruns(db, es, k)
  {
    hide *;
    RunMoves(db, es, k);
  }

  lemma AdmittedFits(db: Db, e: Event)
    requires Inv(db) && e.Reserve? && Enabled(db, e) && db.budgets[e.key].limit.Some?
    ensures Committed(Step(db, e).budgets[e.key]) <= db.budgets[e.key].limit.value
  {
    var b := db.budgets[e.key];
    QuantiseShift(b.reserved, e.estimate);
    QuantiseFits(b.limit.value - SpentAt(b, e.now) - b.reserved, e.estimate);
  }

  /** From the last admitted reserve of a limited key on, the committed amount is
      at most the limit in force at that reserve plus the overruns settled since,
      whatever happens to the limit in between. */
  lemma LimitHolds(db: Db, e: Event, es: seq<Event>)
    requires Inv(db) && e.Reserve? && Enabled(db, e) && db.budgets[e.key].limit.Some?
    requires Possible(Step(db, e), es) && NoReserve(es, e.key)
    ensures e.key in Run(Step(db, e), es).budgets
    ensures Committed(Run(Step(db, e), es).budgets[e.key])
         <= db.budgets[e.key].limit.value + Overruns(Step(db, e), es, e.key)
  {
    AdmittedFits(db, e);
    StepKeepsInv(db, e);
    RunStaysWithin(Step(db, e), es, e.key);
  }

  // ----- the exact excess --------------------------------------------------

  /** What one step gives back of the committed amount of `k`. */
  function Slack(db: Db, e: Event, k: KeyId): nat
    requires Enabled(db, e)
  {
    if e.Reap? then Claimed(db.log, e.ids, k)
    else if e.Settle? && Settles(db, e.id) && k in db.budgets && db.log[e.id].key == k && db.log[e.id].state == Pending
    then
      var r := db.log[e.id];
      if r.window == db.budgets[k].window then Max(0, r.estimated - Quantise(e.cost)) else r.estimated
    else 0
  }

  ghost function Slacks(db: Db, es: seq<Event>, k: KeyId): nat
    requires Possible(db, es)
    decreases |es|
  {
    if es == [] then 0 else Slack(db, es[0], k) + Slacks(Step(db, es[0]), es[1..], k)
  }

  /** Any step but a reserve changes the committed amount by its overrun and its
      slack, and by nothing else. */
  lemma StepMoves(db: Db, e: Event, k: KeyId)
    requires Inv(db) && Enabled(db, e) && k in db.budgets
    requires !(e.Reserve? && e.key == k)
    ensures k in Step(db, e).budgets
    ensures Committed(Step(db, e).budgets[k]) == Committed(db.budgets[k]) + Overrun(db, e, k) - Slack(db, e, k)
  {
    hide Inv, Settlement, Sweep, Charged, Claimed, Quantise, Admits, Allows, Reserved;
    if e.Settle? {
      SettledRow(db, e.id, e.cost, k);
      if Settles(db, e.id) && db.log[e.id].key == k {
        ChargedMoves(db.budgets[k], db.log[e.id], e.cost);
      }
    } else if e.Reap? {
      SweptRow(db, e.ids, k);
    }
  }

  lemma SettledRow(db: Db, id: ResId, cost: Usd, k: KeyId)
    requires Inv(db) && k in db.budgets
    ensures 0 <= db.budgets[k].spent
    ensures k in Settlement(db, id, cost).budgets
    ensures Settlement(db, id, cost).budgets[k]
         == if Settles(db, id) && db.log[id].key == k then Charged(db.budgets[k], db.log[id], cost) else db.budgets[k]
  {
    hide Charged;
  }

  lemma SweptRow(db: Db, ids: seq<ResId>, k: KeyId)
    requires k in db.budgets && forall id :: id in ids ==> id in db.log
    ensures k in Sweep(db, ids).budgets
    ensures Sweep(db, ids).budgets[k] == db.budgets[k].(reserved := db.budgets[k].reserved - Claimed(db.log, ids, k))
  {
    hide Claimed;
  }

  lemma ChargedMoves(b: Budget, r: Reservation, cost: Usd)
    requires 0 <= b.spent && Open(r)
    ensures Charged(b, r, cost).reserved == b.reserved - (if r.state == Expired then 0 else r.estimated)
    ensures Charged(b, r, cost).spent == if b.window == r.window then b.spent + Quantise(cost) else b.spent
  {
    QuantiseShift(b.spent, cost);
  }

  lemma {:induction false} RunMoves(db: Db, es: seq<Event>, k: KeyId)
    requires Inv(db) && Possible(db, es) && k in db.budgets && NoReserve(es, k)
    ensures k in Run(db, es).budgets
    ensures Committed(Run(db, es).budgets[k]) == Committed(db.budgets[k]) + Overruns(db, es, k) - Slacks(db, es, k)
    decreases |es|
  {
    hide Enabled, Step, Overrun, Slack, Inv, Committed;
    if es != [] {
      assert es[0] in es;
      StepMoves(db, es[0], k);
      StepKeepsInv(db, es[0]);
      RunMoves(Step(db, es[0]), es[1..], k);
    }
  }

  /** From the last admitted reserve of a limited key on, the committed amount is
      over that limit by more than `m`, the cost of one request say, exactly when
      the overruns exceed by more than `m` what was given back since and what was
      left of the limit. */
  lemma ExcessExactly(db: Db, e: Event, es: seq<Event>, m: nat)
    requires Inv(db) && e.Reserve? && Enabled(db, e) && db.budgets[e.key].limit.Some?
    requires Possible(Step(db, e), es) && NoReserve(es, e.key)
    ensures
      var limit, after := db.budgets[e.key].limit.value, Step(db, e);
      && e.key in Run(after, es).budgets
      && 0 <= limit - Committed(after.budgets[e.key])
      && (Committed(Run(after, es).budgets[e.key]) > limit + m <==>
          Overruns(after, es, e.key) > Slacks(after, es, e.key) + (limit - Committed(after.budgets[e.key])) + m)
  {
    AdmittedFits(db, e);
    StepKeepsInv(db, e);
    RunMoves(Step(db, e), es, e.key);
  }

  /** Events that bring no overrun at all. */
  ghost predicate NoOverrun(db: Db, es: seq<Event>, k: KeyId)
    requires Possible(db, es)
    decreases |es|
  {
    es == [] || (Overrun(db, es[0], k) == 0 && NoOverrun(Step(db, es[0]), es[1..], k))
  }

  lemma {:induction false} NoOverrunIsZero(db: Db, es: seq<Event>, k: KeyId)
    requires Possible(db, es)
    ensures NoOverrun(db, es, k) <==> Overruns(db, es, k) == 0
    decreases |es|
  {
    if es != [] {
      NoOverrunIsZero(Step(db, es[0]), es[1..], k);
    }
  }

  /** A key is never over its limit until some settle costs more than was held. */
  lemma NeverExceededWithoutOverrun(db: Db, e: Event, es: seq<Event>)
    requires Inv(db) && e.Reserve? && Enabled(db, e) && db.budgets[e.key].limit.Some?
    requires Possible(Step(db, e), es) && NoReserve(es, e.key) && NoOverrun(Step(db, e), es, e.key)
    ensures e.key in Run(Step(db, e), es).budgets
    ensures Committed(Run(Step(db, e), es).budgets[e.key]) <= db.budgets[e.key].limit.value
  {
    LimitHolds(db, e, es);
    NoOverrunIsZero(Step(db, e), es, e.key);
  }

  /** "At most one request over" is not what the protocol gives: two reservations
      of 5 admitted under a limit of 10 may each cost 15, and the key is then 20
      over, which is more than either request. */
  lemma TwoRequestsOver() returns (es: seq<Event>)
    ensures Possible(Db(map[], map[], map[]), es)
    ensures var db := Run(Db(map[], map[], map[]), es);
      && 0 in db.budgets && db.budgets[0].limit == Some(10)
      && db.budgets[0].spent == 30
      && forall id :: id in db.log ==> db.log[id].actual == 15
  {
    hide Run, Possible, Enabled, Step;
    var reserves := TwoReserved();
    var settles := TwoSettled();
    RunAppend(Db(map[], map[], map[]), reserves, settles);
    es := reserves + settles;
  }

  function TwoHeld(): Db {
    var r := Reservation(0, 1, Pending, 5, 0, 100, false, false);
    Db(map[0 := KeyRow("h", false, None)], map[0 := Budget(1, Some(10), 0, 10)], map[1 := r, 2 := r])
  }

  lemma TwoReserved() returns (es: seq<Event>)
    ensures Possible(Db(map[], map[], map[]), es) && Run(Db(map[], map[], map[]), es) == TwoHeld()
  {
    hide Run, Possible, Quantise;
    WholeAmounts();
    var row := KeyRow("h", false, None);
    var e0 := CreateKey(0, row, Some(10), 1);
    var e1 := Reserve(0, row, "h", "m", 5.0, 1, 100, 1);
    var e2 := Reserve(0, row, "h", "m", 5.0, 1, 100, 2);
    var d0 := Db(map[], map[], map[]);
    var d1 := Step(d0, e0);
    var d2 := Step(d1, e1);
    assert d2.budgets[0] == Budget(1, Some(10), 0, 5);
    assert Step(d2, e2) == TwoHeld();
    Chain(d2, e2, []);
    Chain(d1, e1, [e2] + []);
    Chain(d0, e0, [e1] + ([e2] + []));
    es := [e0] + ([e1] + ([e2] + []));
  }

  lemma TwoSettled() returns (es: seq<Event>)
    ensures Possible(TwoHeld(), es)
    ensures var db := Run(TwoHeld(), es);
      && 0 in db.budgets && db.budgets[0] == Budget(1, Some(10), 30, 0)
      && forall id :: id in db.log ==> db.log[id].actual == 15
  {
    hide Run, Possible, Quantise;
    WholeAmounts();
    var e3, e4 := Settle(1, 15.0), Settle(2, 15.0);
    var d4 := Step(TwoHeld(), e3);
    assert d4.budgets[0] == Budget(1, Some(10), 15, 5);
    Chain(d4, e4, []);
    Chain(TwoHeld(), e3, [e4] + []);
    es := [e3] + ([e4] + []);
  }

  lemma WholeAmounts()
    ensures Quantise(5.0) == 5 && Quantise(15.0) == 15 && Quantise(0.0) == 0
    ensures Quantise(0 as real + 5.0) == 5 && Quantise(5 as real + 5.0) == 10
    ensures Quantise(0 as real + 15.0) == 15 && Quantise(15 as real + 15.0) == 30
  {
  }

  lemma Chain(db: Db, e: Event, es: seq<Event>)
    requires Enabled(db, e) && (es == [] || Possible(Step(db, e), es))
    ensures Possible(Step(db, e), es) && Possible(db, [e] + es)
    ensures Run(db, [e] + es) == if es == [] then Step(db, e) else Run(Step(db, e), es)
  {
    assert ([e] + es)[1..] == es;
  }

  // ----- once --------------------------------------------------------------

  /** A settled reservation never changes again, however often it is settled. */
  lemma {:induction false} SettledIsFinal(db: Db, es: seq<Event>, id: ResId)
    requires Possible(db, es) && id in db.log && db.log[id].state == Settled
    ensures id in Run(db, es).log && Run(db, es).log[id] == db.log[id]
    decreases |es|
  {
    if es != [] {
      SettledIsFinal(Step(db, es[0]), es[1..], id);
    }
  }

  /** How many of the settles of `id` had an effect. */
  ghost function EffectiveSettles(db: Db, es: seq<Event>, id: ResId): nat
    requires Possible(db, es)
    decreases |es|
  {
    if es == [] then 0
    else
      (if es[0].Settle? && es[0].id == id && Settles(db, id) then 1 else 0)
      + EffectiveSettles(Step(db, es[0]), es[1..], id)
  }

  predicate IsSettled(db: Db, id: ResId) {
    id in db.log && db.log[id].state == Settled
  }

  lemma {:induction false} SettlesAtMostOnce(db: Db, es: seq<Event>, id: ResId)
    requires Possible(db, es)
    ensures EffectiveSettles(db, es, id) <= 1
    ensures EffectiveSettles(db, es, id) == 1 <==> IsSettled(Run(db, es), id) && !IsSettled(db, id)
    ensures IsSettled(db, id) ==> IsSettled(Run(db, es), id)
    decreases |es|
  {
    if es != [] {
      SettlesAtMostOnce(Step(db, es[0]), es[1..], id);
    }
  }

  /** What a pending reservation holds of its key's budget. */
  function Held(db: Db, id: ResId): nat {
    if id in db.log && db.log[id].state == Pending then db.log[id].estimated else 0
  }

  /** What one step takes back of the amount that `id` holds, by settle or sweep. */
  function Release(db: Db, e: Event, id: ResId): nat {
    if id in db.log && ((e.Settle? && e.id == id && db.log[id].state == Pending) || (e.Reap? && id in e.ids))
    then db.log[id].estimated else 0
  }

  function TakenUp(e: Event, id: ResId): nat {
    if e.Reserve? && e.id == id then Quantise(e.estimate) else 0
  }

  ghost function Releases(db: Db, es: seq<Event>, id: ResId): nat
    requires Possible(db, es)
    decreases |es|
  {
    if es == [] then 0 else Release(db, es[0], id) + Releases(Step(db, es[0]), es[1..], id)
  }

  ghost function TakenUpBy(es: seq<Event>, id: ResId): nat {
    if es == [] then 0 else TakenUp(es[0], id) + TakenUpBy(es[1..], id)
  }

  /** Over any run what was taken up is either still held or was given back, once. */
  lemma {:induction false} ReleasedOnce(db: Db, es: seq<Event>, id: ResId)
    requires Possible(db, es)
    ensures Held(db, id) + TakenUpBy(es, id) == Held(Run(db, es), id) + Releases(db, es, id)
    decreases |es|
  {
    if es != [] {
      ReleasedOnce(Step(db, es[0]), es[1..], id);
    }
  }

  /** What one step releases of the reservations of `k`, one by one. */
  function ReleasedOf(db: Db, e: Event, ids: seq<ResId>, k: KeyId): nat {
    if ids == [] then 0
    else
      var last := ids[|ids| - 1];
      ReleasedOf(db, e, ids[..|ids| - 1], k)
      + (if last in db.log && db.log[last].key == k then Release(db, e, last) else 0)
  }

  function Touched(e: Event): seq<ResId> {
    match e
    case Settle(id, _) => [id]
    case Reap(ids, _) => ids
    case _ => []
  }

  lemma {:induction false} ReleasedIsClaimed(db: Db, e: Event, ids: seq<ResId>, k: KeyId)
    requires e.Reap? && forall id :: id in ids ==> id in e.ids && id in db.log
    ensures ReleasedOf(db, e, ids, k) == Claimed(db.log, ids, k)
  {
    if ids != [] {
      assert ids[|ids| - 1] in ids;
      ReleasedIsClaimed(db, e, ids[..|ids| - 1], k);
    }
  }

  /** The reserved balance of a key moves by what a reserve takes up and by what is
      released of the key's reservations: each release is taken off the balance. */
  lemma ReleasesMoveTheBalance(db: Db, e: Event, k: KeyId)
    requires Inv(db) && Enabled(db, e) && k in db.budgets
    ensures k in Step(db, e).budgets
    ensures Step(db, e).budgets[k].reserved
         == db.budgets[k].reserved + (if e.Reserve? && e.key == k then TakenUp(e, e.id) else 0)
            - ReleasedOf(db, e, Touched(e), k)
  {
    hide Inv, Settlement, Sweep, Charged, Claimed, Quantise, Admits, Allows;
    if e.Settle? {
      assert [e.id][..0] == [];
      SettledRow(db, e.id, e.cost, k);
      if Settles(db, e.id) && db.log[e.id].key == k {
        ChargedMoves(db.budgets[k], db.log[e.id], e.cost);
      }
    } else if e.Reap? {
      ReleasedIsClaimed(db, e, e.ids, k);
      SweptRow(db, e.ids, k);
    } else if e.Reserve? {
      ReservedIsNat(db, e.key);
      QuantiseShift(db.budgets[e.key].reserved, e.estimate);
    }
  }

  lemma ReservedIsNat(db: Db, k: KeyId)
    requires Inv(db) && k in db.budgets
    ensures 0 <= db.budgets[k].reserved
  {
  }

  // ----- order -------------------------------------------------------------

  lemma {:induction false} ClaimedSplit(log: map<ResId, Reservation>, p: seq<ResId>, q: seq<ResId>, k: KeyId)
    requires forall id :: id in p + q ==> id in log
    ensures forall id :: id in p || id in q ==> id in log
    ensures Claimed(log, p + q, k) == Claimed(log, p, k) + Claimed(log, q, k)
  {
    assert forall id :: id in p || id in q ==> id in p + q;
    if q == [] {
      assert p + q == p;
    } else {
      var front := q[..|q| - 1];
      assert (p + q)[..|p + q| - 1] == p + front;
      ClaimedSplit(log, p, front, k);
    }
  }

  lemma {:induction false} ClaimedAgrees(log: map<ResId, Reservation>, log': map<ResId, Reservation>,
                                         ids: seq<ResId>, k: KeyId)
    requires forall id :: id in ids ==> id in log && id in log' && log[id] == log'[id]
    ensures Claimed(log, ids, k) == Claimed(log', ids, k)
  {
    if ids != [] {
      assert ids[|ids| - 1] in ids;
      ClaimedAgrees(log, log', ids[..|ids| - 1], k);
    }
  }

  /** Where the batches of the two orders differ: only in `id`. */
  lemma BatchWithout(p: seq<ResId>, id: ResId, q: seq<ResId>)
    requires Distinct(p + [id] + q)
    ensures Distinct(p + q) && id !in p + q
    ensures forall x :: x in p + [id] + q <==> x == id || x in p + q
  {
    var ids := p + [id] + q;
    assert forall i :: 0 <= i < |p + q| ==> (p + q)[i] == ids[if i < |p| then i else i + 1];
    assert ids[|p|] == id;
    forall x | x in p + q
      ensures x != id && x in ids
    {
      var i :| 0 <= i < |p + q| && (p + q)[i] == x;
      assert ids[if i < |p| then i else i + 1] == x;
    }
  }

  lemma ClaimedWithout(db: Db, p: seq<ResId>, id: ResId, q: seq<ResId>, cost: Usd, k: KeyId)
    requires Distinct(p + [id] + q) && forall x :: x in p + [id] + q ==> x in db.log
    ensures id in db.log
    ensures forall x :: x in p + q ==> x in Settlement(db, id, cost).log
    ensures Claimed(db.log, p + [id] + q, k)
         == (if db.log[id].key == k then db.log[id].estimated else 0)
            + Claimed(Settlement(db, id, cost).log, p + q, k)
  {
    BatchWithout(p, id, q);
    ClaimedSplit(db.log, p + [id], q, k);
    ClaimedSplit(db.log, p, [id], k);
    ClaimedSplit(db.log, p, q, k);
    ClaimedAgrees(db.log, Settlement(db, id, cost).log, p + q, k);
    assert Claimed(db.log, [id], k)
        == (if db.log[id].key == k then db.log[id].estimated else 0) + Claimed(db.log, [], k);
  }

  /** One row: releasing it with the settle or with the sweep is the same. */
  lemma ChargeAfterSweep(b: Budget, r: Reservation, cost: Usd, rest: int)
    requires r.state == Pending
    ensures Charged(b.(reserved := b.reserved - (r.estimated + rest)), r.(state := Expired), cost)
         == Charged(b, r, cost).(reserved := Charged(b, r, cost).reserved - rest)
  {
  }

  ghost predicate Without(log: map<ResId, Reservation>, log': map<ResId, Reservation>,
                          ids: seq<ResId>, id: ResId, others: seq<ResId>)
    requires forall x :: x in ids ==> x in log
    requires forall x :: x in others ==> x in log'
    requires id in log
  {
    forall k :: Claimed(log, ids, k) == (if log[id].key == k then log[id].estimated else 0) + Claimed(log', others, k)
  }

  lemma SettleAndSweepBalance(db: Db, ids: seq<ResId>, id: ResId, others: seq<ResId>, cost: Usd, k: KeyId)
    requires k in db.budgets && id in ids && id in db.log && db.log[id].state == Pending
    requires forall x :: x in ids ==> x in db.log
    requires forall x :: x in others ==> x in db.log
    requires Without(db.log, Settlement(db, id, cost).log, ids, id, others)
    ensures k in Sweep(Settlement(db, id, cost), others).budgets
    ensures k in Settlement(Sweep(db, ids), id, cost).budgets
    ensures Sweep(Settlement(db, id, cost), others).budgets[k] == Settlement(Sweep(db, ids), id, cost).budgets[k]
  {
    hide *;
    var settled, swept := Settlement(db, id, cost), Sweep(db, ids);
    SettledAt(db, id, cost, k);
    var r, c := db.log[id], Claimed(settled.log, others, k);
    SweptRow(settled, others, k);
    SweptRow(db, ids, k);
    SweptAt(db, ids, id);
    SettledAt(swept, id, cost, k);
    WithoutAt(db.log, settled.log, ids, id, others, k);
    if r.key == k {
      ChargeAfterSweep(db.budgets[k], r, cost, c);
    }
  }

  lemma SettledAt(db: Db, id: ResId, cost: Usd, k: KeyId)
    requires k in db.budgets && id in db.log && (db.log[id].state == Pending || db.log[id].state == Expired)
    ensures k in Settlement(db, id, cost).budgets
    ensures Settlement(db, id, cost).budgets[k]
         == if db.log[id].key == k then Charged(db.budgets[k], db.log[id], cost) else db.budgets[k]
    ensures Settlement(db, id, cost).log.Keys == db.log.Keys
  {
    hide Charged;
  }

  lemma SweptAt(db: Db, ids: seq<ResId>, id: ResId)
    requires id in ids && forall x :: x in ids ==> x in db.log
    ensures id in Sweep(db, ids).log && Sweep(db, ids).log[id] == db.log[id].(state := Expired)
  {
    hide Claimed;
  }

  lemma WithoutAt(log: map<ResId, Reservation>, log': map<ResId, Reservation>, ids: seq<ResId>, id: ResId,
                  others: seq<ResId>, k: KeyId)
    requires forall x :: x in ids ==> x in log
    requires forall x :: x in others ==> x in log'
    requires id in log && Without(log, log', ids, id, others)
    ensures Claimed(log, ids, k) == (if log[id].key == k then log[id].estimated else 0) + Claimed(log', others, k)
  {
  }

  /** A settle that beats the sweep and one that comes after it leave the same
      balances and the same log, but for the flag that says which it was. */
  lemma SettleAndSweepCommute(db: Db, p: seq<ResId>, id: ResId, q: seq<ResId>, at: Instant, cost: Usd)
    requires Inv(db) && Enabled(db, Reap(p + [id] + q, at))
    ensures Enabled(Settlement(db, id, cost), Reap(p + q, at))
    ensures
      var settledFirst := Sweep(Settlement(db, id, cost), p + q);
      var sweptFirst := Settlement(Sweep(db, p + [id] + q), id, cost);
      && settledFirst.budgets == sweptFirst.budgets
      && settledFirst.keys == sweptFirst.keys
      && id in settledFirst.log && !settledFirst.log[id].settledAfterExpiry
      && sweptFirst.log == settledFirst.log[id := settledFirst.log[id].(settledAfterExpiry := true)]
  {
    hide Inv, Sweep, Settlement, Claimed;
    BatchWithout(p, id, q);
    SettlementKeepsOthers(db, p + q, id, cost);
    KeysKept(db, p + [id] + q, p + q, id, cost);
    forall k
      ensures Claimed(db.log, p + [id] + q, k)
           == (if db.log[id].key == k then db.log[id].estimated else 0)
              + Claimed(Settlement(db, id, cost).log, p + q, k)
    {
      ClaimedWithout(db, p, id, q, cost, k);
    }
    SettleAndSweepBudgets(db, p + [id] + q, id, p + q, cost);
    SettleAndSweepLog(db, p + [id] + q, p + q, id, cost);
  }

  lemma SettlementKeepsOthers(db: Db, others: seq<ResId>, id: ResId, cost: Usd)
    requires id !in others
    ensures db.log.Keys == Settlement(db, id, cost).log.Keys
    ensures forall x :: x in others && x in db.log ==> Settlement(db, id, cost).log[x] == db.log[x]
  {
  }

  lemma KeysKept(db: Db, ids: seq<ResId>, others: seq<ResId>, id: ResId, cost: Usd)
    requires forall x :: x in ids ==> x in db.log
    requires forall x :: x in others ==> x in Settlement(db, id, cost).log
    ensures Sweep(Settlement(db, id, cost), others).keys == db.keys == Settlement(Sweep(db, ids), id, cost).keys
  {
  }

  lemma SettleAndSweepBudgets(db: Db, ids: seq<ResId>, id: ResId, others: seq<ResId>, cost: Usd)
    requires id in ids && id in db.log && db.log[id].state == Pending
    requires forall x :: x in ids ==> x in db.log
    requires forall x :: x in others ==> x in db.log
    requires Without(db.log, Settlement(db, id, cost).log, ids, id, others)
    ensures Sweep(Settlement(db, id, cost), others).budgets == Settlement(Sweep(db, ids), id, cost).budgets
  {
    hide Claimed, Charged, ExpireAll, Without;
    var a, b := Sweep(Settlement(db, id, cost), others).budgets, Settlement(Sweep(db, ids), id, cost).budgets;
    SettledKeys(db, id, cost);
    SweptKeys(db, ids);
    SettledKeys(Sweep(db, ids), id, cost);
    SweptKeys(Settlement(db, id, cost), others);
    hide Sweep, Settlement;
    forall k | k in db.budgets
      ensures a[k] == b[k]
    {
      SettleAndSweepBalance(db, ids, id, others, cost, k);
    }
  }

  lemma SettledKeys(db: Db, id: ResId, cost: Usd)
    ensures Settlement(db, id, cost).budgets.Keys == db.budgets.Keys
  {
  }

  lemma SweptKeys(db: Db, ids: seq<ResId>)
    requires forall x :: x in ids ==> x in db.log
    ensures Sweep(db, ids).budgets.Keys == db.budgets.Keys
  {
  }

  lemma SettleAndSweepLog(db: Db, ids: seq<ResId>, others: seq<ResId>, id: ResId, cost: Usd)
    requires forall x :: x in ids <==> x == id || x in others
    requires id !in others
    requires forall x :: x in ids ==> x in db.log && db.log[x].state == Pending
    ensures forall x :: x in others ==> x in Settlement(db, id, cost).log
    ensures id in Sweep(Settlement(db, id, cost), others).log
    ensures var r := Sweep(Settlement(db, id, cost), others).log[id];
      && !r.settledAfterExpiry
      && Settlement(Sweep(db, ids), id, cost).log
         == Sweep(Settlement(db, id, cost), others).log[id := r.(settledAfterExpiry := true)]
  {
    assert id in ids;
  }
}
