/** From the guard band to the limit: how far a key can be over its limit, given how
    far the estimates of its requests can fall short. */
module Shortfall {
  import opened Basics
  import opened Ledger
  import opened LedgerRuns
  import opened LedgerLimits
  import Estimate
  import PriceTable

  /** Prices are in dollars, stored amounts in units of 10^-10 dollars. */
  const UNITS_PER_DOLLAR: real := 10000000000.0

  // ----- one request -------------------------------------------------------

  lemma QuantiseMono(x: Usd, y: Usd)
    requires x <= y
    ensures Quantise(x) <= Quantise(y)
  {
  }

  /** A cost that is at most the held amount divided by the factor is still so once
      both are stored, up to one unit. */
  lemma StoredShortfall(held: Usd, cost: Usd, f: real)
    requires 0.0 < f <= 1.0 && cost <= held / f
    ensures f * Quantise(cost) as real <= Quantise(held) as real + 1.0
  {
    hide Quantise;
    ScaledStored(f, Quantise(cost) as real, cost);
    ScaledCost(f, cost, held);
  }

  lemma NonNegative(f: real, d: real)
    requires 0.0 <= f && 0.0 <= d
    ensures 0.0 <= f * d
  {
  }

  lemma ScaledStored(f: real, stored: real, cost: real)
    requires 0.0 < f <= 1.0 && stored <= cost + 0.5
    ensures f * stored <= f * cost + 0.5
  {
    NonNegative(f, cost + 0.5 - stored);
    NonNegative(1.0 - f, 0.5);
  }

  lemma ScaledCost(f: real, cost: real, held: real)
    requires 0.0 < f && cost <= held / f
    ensures f * cost <= held
  {
    var q := held / f;
    Estimate.MulMono(f, cost, q);
    assert f * q == held;
  }

  lemma Scale(held: Usd, cost: Usd, f: real)
    requires 0.0 < f && cost <= held / f
    ensures cost * UNITS_PER_DOLLAR <= held * UNITS_PER_DOLLAR / f
  {
    assert held * UNITS_PER_DOLLAR / f == held / f * UNITS_PER_DOLLAR;
  }

  function Stored(price: Usd): Usd {
    price * UNITS_PER_DOLLAR
  }

  /** A price is stored to ten decimals of a dollar. */
  lemma TenDecimals(price: Usd)
    ensures
      var stored := Quantise(Stored(price)) as real / 10000000000.0;
      -0.00000000005 <= stored - price <= 0.00000000005
  {
    hide Quantise;
    var n := Quantise(Stored(price)) as real;
    assert n - 0.5 <= price * 10000000000.0 <= n + 0.5;
  }

  /** The stored amounts of a request that the guard band covers. */
  lemma GuardCoversRequest(t: PriceTable.Table, req: Estimate.EstimateRequest, guarded: Int64, thresholds: seq<int>,
                           input: Int64, output: Int64, held: Usd, used: Usd)
    requires Estimate.Comparable(t, req, guarded, thresholds, input, output)
    requires Estimate.FullyPriced(Estimate.Held(t, req, guarded)) && held == Estimate.Held(t, req, guarded).cost
    requires
      var p := PriceTable.CostOf(t, req.model, req.provider, req.tier, req.at, Estimate.Usage(input, output));
      Estimate.FullyPriced(p) && used == p.cost
    ensures 0.0 < Estimate.GuardOf(req) <= 1.0
    ensures Estimate.GuardOf(req) * Quantise(Stored(used)) as real <= Quantise(Stored(held)) as real + 1.0
    ensures input <= guarded ==> Quantise(Stored(used)) <= Quantise(Stored(held))
  {
    hide *;
    Estimate.EstimateBoundsCost(t, req, guarded, thresholds, input, output);
    Estimate.ComparableAmounts(t, req, guarded, thresholds, input, output);
    StoredCovers(held, used, Estimate.GuardOf(req));
    if input <= guarded {
      StoredMono(used, held);
    }
  }

  lemma StoredCovers(held: Usd, used: Usd, f: real)
    requires 0.0 < f <= 1.0 && used <= held / f
    ensures f * Quantise(Stored(used)) as real <= Quantise(Stored(held)) as real + 1.0
  {
    hide Quantise;
    Scale(held, used, f);
    StoredShortfall(Stored(held), Stored(used), f);
  }

  lemma StoredMono(used: Usd, held: Usd)
    requires used <= held
    ensures Quantise(Stored(used)) <= Quantise(Stored(held))
  {
    hide Quantise;
    QuantiseMono(Stored(used), Stored(held));
  }

  // ----- a run -------------------------------------------------------------

  /** The event charges the window that the balance of `k` is in. */
  predicate Charges(db: Db, e: Event, k: KeyId) {
    && e.Settle? && Settles(db, e.id) && k in db.budgets
    && db.log[e.id].key == k && db.log[e.id].window == db.budgets[k].window
  }

  /** A charge of `k`, if this is one, costs no more than its reservation over the
      factor. */
  predicate Covered(db: Db, e: Event, k: KeyId, f: real) {
    Charges(db, e, k) ==> f * Quantise(e.cost) as real <= db.log[e.id].estimated as real + 1.0
  }

  ghost predicate AllCovered(db: Db, es: seq<Event>, k: KeyId, f: real)
    requires Possible(db, es)
    decreases |es|
  {
    es == [] || (Covered(db, es[0], k, f) && AllCovered(Step(db, es[0]), es[1..], k, f))
  }

  /** A request that the guard band covers is covered when it is settled, under
      whatever factor is no greater than its own. */
  lemma GuardedSettleIsCovered(t: PriceTable.Table, req: Estimate.EstimateRequest, guarded: Int64,
                               thresholds: seq<int>, input: Int64, output: Int64, held: Usd, used: Usd,
                               db: Db, id: ResId, k: KeyId, f: real)
    requires Estimate.Comparable(t, req, guarded, thresholds, input, output)
    requires Estimate.FullyPriced(Estimate.Held(t, req, guarded)) && held == Estimate.Held(t, req, guarded).cost
    requires
      var p := PriceTable.CostOf(t, req.model, req.provider, req.tier, req.at, Estimate.Usage(input, output));
      Estimate.FullyPriced(p) && used == p.cost
    requires id in db.log && db.log[id].estimated == Quantise(Stored(held)) && f <= Estimate.GuardOf(req)
    ensures Covered(db, Settle(id, Stored(used)), k, f)
  {
    hide *;
    GuardCoversRequest(t, req, guarded, thresholds, input, output, held, used);
    LowerFactor(f, Estimate.GuardOf(req), Quantise(Stored(used)));
    CoveredIs(db, id, Stored(used), k, f);
  }

  lemma LowerFactor(f: real, g: real, n: nat)
    requires f <= g
    ensures f * n as real <= g * n as real
  {
    Estimate.MulMono(n as real, f, g);
  }

  lemma CoveredIs(db: Db, id: ResId, cost: Usd, k: KeyId, f: real)
    requires id in db.log && f * Quantise(cost) as real <= db.log[id].estimated as real + 1.0
    ensures Covered(db, Settle(id, cost), k, f)
  {
    hide Quantise;
  }

  /** Reservations are made with the estimate as it is stored. */
  lemma ReservedAsStored(db: Db, e: Event, held: Usd)
    requires e.Reserve? && Enabled(db, e) && e.estimate == Stored(held)
    ensures e.id in Step(db, e).log && Step(db, e).log[e.id].estimated == Quantise(Stored(held))
  {
    hide Quantise, Reserved, Admits, Allows;
  }

  /** By how much one step can exceed what was held for `k`, times the factor: the
      share of the estimate that the factor leaves open, and the whole estimate if
      it had been released. */
  function Exposure(db: Db, e: Event, k: KeyId, f: real): real {
    if Charges(db, e, k) then
      var r := db.log[e.id];
      (if r.state == Expired then r.estimated as real else (1.0 - f) * r.estimated as real) + 1.0
    else 0.0
  }

  ghost function Exposures(db: Db, es: seq<Event>, k: KeyId, f: real): real
    requires Possible(db, es)
    decreases |es|
  {
    if es == [] then 0.0 else Exposure(db, es[0], k, f) + Exposures(Step(db, es[0]), es[1..], k, f)
  }

  lemma OverrunIsExposed(db: Db, e: Event, k: KeyId, f: real)
    requires 0.0 < f <= 1.0 && Covered(db, e, k, f)
    ensures f * Overrun(db, e, k) as real <= Exposure(db, e, k, f)
  {
    if Charges(db, e, k) && db.log[e.id].state == Pending {
      Excess(f, Quantise(e.cost), db.log[e.id].estimated);
    }
  }

  lemma Excess(f: real, actual: nat, estimated: nat)
    requires 0.0 < f <= 1.0 && f * actual as real <= estimated as real + 1.0
    ensures f * Max(0, actual - estimated) as real <= (1.0 - f) * estimated as real + 1.0
  {
    if estimated < actual {
      assert f * (actual - estimated) as real == f * actual as real - f * estimated as real;
    } else {
      Estimate.MulMono(1.0 - f, 0.0, estimated as real);
    }
  }

  lemma {:induction false} OverrunsAreExposed(db: Db, es: seq<Event>, k: KeyId, f: real)
    requires 0.0 < f <= 1.0 && Possible(db, es) && AllCovered(db, es, k, f)
    ensures f * Overruns(db, es, k) as real <= Exposures(db, es, k, f)
    decreases |es|
  {
    hide Enabled, Step, Overrun, Exposure, Covered;
    if es != [] {
      var first, rest := Overrun(db, es[0], k), Overruns(Step(db, es[0]), es[1..], k);
      OverrunIsExposed(db, es[0], k, f);
      OverrunsAreExposed(Step(db, es[0]), es[1..], k, f);
      Estimate.Distribute(f, first as real, rest as real);
      assert (first + rest) as real == first as real + rest as real;
    }
  }

  /** From the last admitted reserve on, a key whose own requests, as far as they are
      charged to its window, are all covered by the guard band is over its limit by at
      most the share of the estimates settled since that the factor leaves open, and
      whole estimates where the reservation had expired, divided by the factor. */
  lemma GuardedLimitHolds(db: Db, e: Event, es: seq<Event>, f: real)
    requires Inv(db) && e.Reserve? && Enabled(db, e) && db.budgets[e.key].limit.Some?
    requires Possible(Step(db, e), es) && NoReserve(es, e.key)
    requires 0.0 < f <= 1.0 && AllCovered(Step(db, e), es, e.key, f)
    ensures e.key in Run(Step(db, e), es).budgets
    ensures Committed(Run(Step(db, e), es).budgets[e.key]) as real
         <= db.budgets[e.key].limit.value as real + Exposures(Step(db, e), es, e.key, f) / f
  {
    hide *;
    LimitHolds(db, e, es);
    OverrunsAreExposed(Step(db, e), es, e.key, f);
    Estimate.DivideOut(f, Overruns(Step(db, e), es, e.key) as real, Exposures(Step(db, e), es, e.key, f));
  }
}
