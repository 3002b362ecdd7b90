/** The amount a reserve sets aside, and how far below the real cost it can be. */
module Estimate {
  import opened Basics
  import opened PriceTable

  const GUARD_FACTOR: real := 0.75
  const CHARS_PER_TOKEN: nat := 4

  function EstimateInputTokens(promptBytes: int): nat {
    if promptBytes <= 0 then 0 else promptBytes / CHARS_PER_TOKEN + 1
  }

  predicate InBand(estimate: int, threshold: int, factor: real) {
    threshold > 0 && estimate < threshold && estimate as real >= factor * threshold as real
  }

  /** The estimate, lifted to the highest threshold whose band it is in. */
  ghost predicate Guarded(estimate: int, thresholds: seq<int>, factor: real, guarded: int) {
    && (forall th :: th in thresholds && InBand(estimate, th, factor) ==> th <= guarded)
    && estimate <= guarded
    && (guarded == estimate || (guarded in thresholds && InBand(estimate, guarded, factor)))
  }

  method GuardedTierTotal(estimate: int, thresholds: seq<int>, factor: real) returns (guarded: int)
    ensures Guarded(estimate, thresholds, factor, guarded)
  {
    guarded := estimate;
    for i := 0 to |thresholds|
      invariant Guarded(estimate, thresholds[..i], factor, guarded)
    {
      var threshold := thresholds[i];
      assert thresholds[..i + 1] == thresholds[..i] + [threshold];
      if !(threshold <= 0 || estimate >= threshold) {
        if estimate as real >= factor * threshold as real {
          guarded := Max(guarded, threshold);
        }
      }
    }
    assert thresholds[..|thresholds|] == thresholds;
  }

  ghost predicate AreThresholds(rows: seq<Row>, tier: Tier, thresholds: seq<int>) {
    && (forall th :: th in thresholds <==> th > 0 && exists r :: r in rows && r.tier == tier && r.from == th)
    && forall i, j :: 0 <= i < j < |thresholds| ==> thresholds[i] != thresholds[j]
  }

  method Thresholds(t: Table, model: string, provider: string, tier: Tier) returns (out: seq<int>)
    ensures AreThresholds(RowsAt(t, Name(model, provider)), tier, out)
  {
    var rows := RowsAt(t, Name(model, provider));
    out := [];
    for i := 0 to |rows|
      invariant AreThresholds(rows[..i], tier, out)
    {
      assert rows[..i + 1] == rows[..i] + [rows[i]];
      if rows[i].tier == tier && rows[i].from > 0 && rows[i].from !in out {
        out := out + [rows[i].from];
      }
    }
    assert rows[..|rows|] == rows;
  }

  function Usage(input: Int64, output: Int64): Counts {
    map[Input := input, Output := output]
  }

  datatype EstimateRequest = EstimateRequest(
    model: string, provider: string, tier: Tier, at: Time,
    promptBytes: Int64, maxTokens: Int64, defaultMaxTokens: Int64, guardFactor: real)

  function OutputCeiling(req: EstimateRequest): Int64 {
    if req.maxTokens <= 0 then req.defaultMaxTokens else req.maxTokens
  }

  function GuardOf(req: EstimateRequest): real {
    if req.guardFactor <= 0.0 then GUARD_FACTOR else req.guardFactor
  }

  /** The amount to reserve is the price of some guarded input total and of the
      output ceiling. */
  ghost predicate Estimated(t: Table, req: EstimateRequest, guarded: Int64, thresholds: seq<int>) {
    && AreThresholds(RowsAt(t, Name(req.model, req.provider)), req.tier, thresholds)
    && Guarded(EstimateInputTokens(req.promptBytes), thresholds, GuardOf(req), guarded)
  }

  function Held(t: Table, req: EstimateRequest, guarded: Int64): Price {
    CostOf(t, req.model, req.provider, req.tier, req.at, Usage(guarded, OutputCeiling(req)))
  }

  method EstimateCost(t: Table, req: EstimateRequest) returns (p: Price)
    ensures exists guarded: Int64, thresholds: seq<int> ::
      Estimated(t, req, guarded, thresholds) && p == Held(t, req, guarded)
  {
    var thresholds := Thresholds(t, req.model, req.provider, req.tier);
    var guarded := GuardedTierTotal(EstimateInputTokens(req.promptBytes), thresholds, GuardOf(req));
    p := Cost(t, req.model, req.provider, req.tier, req.at, Usage(guarded, OutputCeiling(req)));
    assert Estimated(t, req, guarded, thresholds) && p == Held(t, req, guarded);
  }

  /** There is only one guarded total, so the amount is determined. */
  lemma GuardedIsUnique(t: Table, req: EstimateRequest, guarded: Int64, thresholds: seq<int>,
                        guarded': Int64, thresholds': seq<int>)
    requires Estimated(t, req, guarded, thresholds) && Estimated(t, req, guarded', thresholds')
    ensures guarded == guarded'
  {
  }

  // ----- the bound ---------------------------------------------------------

  /** Rates never fall as the context grows. */
  ghost predicate RatesRise(rows: seq<Row>, tier: Tier, at: Time) {
    forall a, b ::
      (a in rows && b in rows && a.kind == b.kind && a.tier == tier && b.tier == tier
       && InForce(a.since, a.until, at) && InForce(b.since, b.until, at) && a.from <= b.from)
      ==> a.rate <= b.rate
  }

  /** Every threshold that the real input has reached, the guarded estimate has
      reached as well, as long as the estimate is not short by more than the
      factor. */
  lemma ThresholdsReached(estimate: int, thresholds: seq<int>, factor: real, guarded: int, actual: int, th: int)
    requires Guarded(estimate, thresholds, factor, guarded) && 0.0 < factor
    requires factor * actual as real <= estimate as real
    requires th in thresholds && 0 < th <= actual
    ensures th <= guarded
  {
    if estimate < th {
      assert factor * th as real <= factor * actual as real by {
        MulMono(factor, th as real, actual as real);
      }
      assert InBand(estimate, th, factor);
    }
  }

  lemma MulMono(f: real, x: real, y: real)
    requires 0.0 <= f && x <= y
    ensures f * x <= f * y
  {
  }

  /** So the row that prices the estimate is no cheaper than the row that prices
      what really happened. */
  lemma RateIsNoLower(rows: seq<Row>, kind: Kind, tier: Tier, at: Time, guarded: int, actual: int)
    requires Clear(rows) && (forall r :: r in rows ==> ValidRow(r)) && RatesRise(rows, tier, at)
    requires 0 <= guarded < MAX_INT64 && 0 <= actual < MAX_INT64
    requires forall r :: r in rows && r.tier == tier && 0 < r.from <= actual ==> r.from <= guarded
    requires Pick(rows, kind, tier, at, guarded).Some? && Pick(rows, kind, tier, at, actual).Some?
    ensures Pick(rows, kind, tier, at, actual).value.rate <= Pick(rows, kind, tier, at, guarded).value.rate
  {
    var a := Pick(rows, kind, tier, at, actual).value;
    var b := Pick(rows, kind, tier, at, guarded).value;
    assert a.from <= guarded;
    if b.from < a.from {
      assert Covers(a, at, a.from) && Covers(b, at, a.from);
      CoveringRowIsUnique(rows, a, b, at, a.from);
    }
  }

  /** What both sides of the comparison have in common. */
  ghost predicate Comparable(t: Table, req: EstimateRequest, guarded: Int64, thresholds: seq<int>,
                             input: Int64, output: Int64) {
    && AllValid(t) && Unambiguous(t)
    && Resolve(t, req.model, req.provider, req.at) == req.model
    && Name(req.model, req.provider) in t.rows
    && RatesRise(RowsAt(t, Name(req.model, req.provider)), req.tier, req.at)
    && Estimated(t, req, guarded, thresholds)
    && (GuardOf(req) * input as real <= EstimateInputTokens(req.promptBytes) as real || input <= guarded)
    && 0 <= output <= OutputCeiling(req) && 0 <= input < MAX_INT64 && guarded < MAX_INT64 && GuardOf(req) <= 1.0
  }

  predicate FullyPriced(p: Price) {
    p.Priced? && !Partial(p)
  }

  lemma ChargesOfUsage(rows: seq<Row>, tier: Tier, at: Time, input: Int64, output: Int64)
    requires 0 <= input && 0 <= output
    ensures InputTokens(Usage(input, output)) == input
    ensures Charges(rows, tier, at, Usage(input, output), input)
         == Charge(rows, tier, at, Usage(input, output), input, Input)
            + Charge(rows, tier, at, Usage(input, output), input, Output)
  {
    hide Charge;
    var c := Usage(input, output);
    assert Count(c, CachedRead) == Count(c, CacheWrite5m) == Count(c, CacheWrite1h) == 0;
    assert Count(c, AudioInput) == Count(c, AudioOutput) == 0;
    forall kind | Count(c, kind) == 0
      ensures Charge(rows, tier, at, c, input, kind) == 0.0
    {
      NothingCharged(rows, tier, at, c, input, kind);
    }
  }

  lemma NothingCharged(rows: seq<Row>, tier: Tier, at: Time, c: Counts, n: int, kind: Kind)
    requires Count(c, kind) == 0
    ensures Charge(rows, tier, at, c, n, kind) == 0.0
  {
  }

  predicate NoLower(a: Option<Row>, b: Option<Row>) {
    (a.Some? ==> 0.0 <= a.value.rate) && (b.Some? ==> 0.0 <= b.value.rate)
    && (a.Some? && b.Some? ==> a.value.rate <= b.value.rate)
  }

  lemma AtRateMono(used: int, held: int, rateUsed: real, rateHeld: real, f: real)
    requires 0 <= used && 0 <= held && 0.0 <= rateUsed <= rateHeld && 0.0 <= f && f * used as real <= held as real
    ensures f * AtRate(used, rateUsed) <= AtRate(held, rateHeld)
  {
    var u, h := used as real, held as real;
    MulMono(rateUsed, f * u, h);
    MulMono(h, rateUsed, rateHeld);
    assert f * AtRate(used, rateUsed) == f * u * rateUsed / 1000000.0;
  }

  /** One kind: the charge for what was used against the charge for what was held. */
  lemma KindBound(kind: Kind, used: Counts, held: Counts, a: Option<Row>, b: Option<Row>, f: real)
    requires kind == Input || kind == Output
    requires 0 <= Count(used, kind) && 0 <= Count(held, kind) && 0.0 < f
    requires f * Count(used, kind) as real <= Count(held, kind) as real
    requires NoLower(a, b) && (Charged(held, kind) ==> b.Some?)
    ensures f * ChargeBy(a, used, kind) <= ChargeBy(b, held, kind)
  {
    var u, h := Count(used, kind), Count(held, kind);
    CountsBelow(f, u, h);
    if u != 0 && a.Some? {
      AtRateMono(u, h, a.value.rate, b.value.rate, f);
    } else if h != 0 {
      AtRateMono(0, h, 0.0, b.value.rate, 0.0);
    }
  }

  lemma CountsBelow(f: real, u: int, h: int)
    requires 0.0 < f && 0 <= u && f * u as real <= h as real
    ensures u != 0 ==> 0 < h
  {
  }

  lemma ScaleDown(f: real, x: real, y: real)
    requires 0.0 <= f <= 1.0 && 0.0 <= x <= y
    ensures f * x <= y
  {
  }

  lemma Distribute(g: real, x: real, y: real)
    ensures g * (x + y) == g * x + g * y
  {
  }

  /** Both kinds together, for any share `g` of the real usage that the estimate
      covers; the rows are those picked for the two input totals. */
  lemma UsageBound(u: Counts, h: Counts, a: Option<Row>, b: Option<Row>, a': Option<Row>, b': Option<Row>, g: real)
    requires 0 <= Count(u, Input) && 0 <= Count(h, Input) && 0 <= Count(u, Output) <= Count(h, Output)
    requires 0.0 < g <= 1.0 && g * Count(u, Input) as real <= Count(h, Input) as real
    requires NoLower(a, b) && (Charged(h, Input) ==> b.Some?)
    requires NoLower(a', b') && (Charged(h, Output) ==> b'.Some?)
    ensures g * (ChargeBy(a, u, Input) + ChargeBy(a', u, Output)) <= ChargeBy(b, h, Input) + ChargeBy(b', h, Output)
  {
    hide *;
    ScaleDown(g, Count(u, Output) as real, Count(h, Output) as real);
    KindBound(Input, u, h, a, b, g);
    KindBound(Output, u, h, a', b', g);
    Distribute(g, ChargeBy(a, u, Input), ChargeBy(a', u, Output));
  }

  /** The rows that price the two sides. */
  lemma PickedRowsCompare(rows: seq<Row>, kind: Kind, tier: Tier, at: Time, guarded: int, actual: int)
    requires Clear(rows) && (forall r :: r in rows ==> ValidRow(r)) && RatesRise(rows, tier, at)
    requires 0 <= guarded < MAX_INT64 && 0 <= actual < MAX_INT64
    requires forall r :: r in rows && r.tier == tier && 0 < r.from <= actual ==> r.from <= guarded
    ensures NoLower(Pick(rows, kind, tier, at, actual), Pick(rows, kind, tier, at, guarded))
  {
    if Pick(rows, kind, tier, at, actual).Some? && Pick(rows, kind, tier, at, guarded).Some? {
      RateIsNoLower(rows, kind, tier, at, guarded, actual);
    }
  }

  /** A real input within the guarded total is not short by more than the factor. */
  lemma WithinTheFactor(estimate: nat, thresholds: seq<int>, factor: real, guarded: int, input: nat)
    requires Guarded(estimate, thresholds, factor, guarded) && 0.0 < factor <= 1.0 && input <= guarded
    ensures factor * input as real <= estimate as real
  {
    MulMono(factor, input as real, guarded as real);
    ScaleDown(factor, estimate as real, estimate as real);
  }

  /** If the factor bounds how far the estimated input may fall short, then the real
      cost is at most the reserved amount divided by the factor; and if the real
      input stays within the guarded total, at most the reserved amount. */
  lemma EstimateBoundsCost(t: Table, req: EstimateRequest, guarded: Int64, thresholds: seq<int>,
                           input: Int64, output: Int64)
    requires Comparable(t, req, guarded, thresholds, input, output)
    requires FullyPriced(Held(t, req, guarded))
    requires FullyPriced(CostOf(t, req.model, req.provider, req.tier, req.at, Usage(input, output)))
    ensures
      var held := Held(t, req, guarded).cost;
      var used := CostOf(t, req.model, req.provider, req.tier, req.at, Usage(input, output)).cost;
      && used <= held / GuardOf(req)
      && (input <= guarded ==> used <= held)
  {
    hide *;
    HeldIs(t, req, guarded);
    ComparableAmounts(t, req, guarded, thresholds, input, output);
    CostOfUsage(t, req, guarded, OutputCeiling(req));
    CostOfUsage(t, req, input, output);
    FullyPricedPicks(t, req, guarded);
    ComparableRows(t, req, guarded, thresholds, input, output, Input);
    ComparableRows(t, req, guarded, thresholds, input, output, Output);
    ChargesCompare(t.rows[Name(req.model, req.provider)], req.tier, req.at,
      guarded, OutputCeiling(req), input, output, GuardOf(req));
  }

  lemma HeldIs(t: Table, req: EstimateRequest, guarded: Int64)
    ensures Held(t, req, guarded)
         == CostOf(t, req.model, req.provider, req.tier, req.at, Usage(guarded, OutputCeiling(req)))
  {
  }

  lemma ComparableAmounts(t: Table, req: EstimateRequest, guarded: Int64, thresholds: seq<int>,
                          input: Int64, output: Int64)
    requires Comparable(t, req, guarded, thresholds, input, output)
    ensures Resolve(t, req.model, req.provider, req.at) == req.model && Name(req.model, req.provider) in t.rows
    ensures 0.0 < GuardOf(req) <= 1.0 && GuardOf(req) * input as real <= guarded as real
    ensures GuardOf(req) * input as real <= EstimateInputTokens(req.promptBytes) as real
    ensures 0 <= input && 0 <= guarded && 0 <= output <= OutputCeiling(req)
  {
    hide *;
    ComparableParts(t, req, guarded, thresholds, input, output);
    if input <= guarded {
      WithinTheFactor(EstimateInputTokens(req.promptBytes), thresholds, GuardOf(req), guarded, input);
    }
    GuardedAtLeast(EstimateInputTokens(req.promptBytes), thresholds, GuardOf(req), guarded);
  }

  lemma ComparableParts(t: Table, req: EstimateRequest, guarded: Int64, thresholds: seq<int>,
                        input: Int64, output: Int64)
    requires Comparable(t, req, guarded, thresholds, input, output)
    ensures Resolve(t, req.model, req.provider, req.at) == req.model && Name(req.model, req.provider) in t.rows
    ensures GuardOf(req) * input as real <= EstimateInputTokens(req.promptBytes) as real || input <= guarded
    ensures 0 <= input && 0 <= output <= OutputCeiling(req) && 0.0 < GuardOf(req) <= 1.0
    ensures Guarded(EstimateInputTokens(req.promptBytes), thresholds, GuardOf(req), guarded)
  {
    hide Guarded, Resolve, AllValid, Unambiguous, RatesRise, RowsAt;
  }

  lemma GuardedAtLeast(estimate: nat, thresholds: seq<int>, factor: real, guarded: int)
    requires Guarded(estimate, thresholds, factor, guarded)
    ensures estimate <= guarded
  {
  }

  /** The same, for the charges that make up the two costs. */
  lemma ChargesCompare(rows: seq<Row>, tier: Tier, at: Time, guarded: Int64, ceiling: Int64,
                       input: Int64, output: Int64, f: real)
    requires 0 <= input && 0 <= guarded && 0 <= output <= ceiling
    requires 0.0 < f <= 1.0 && f * input as real <= guarded as real
    requires NoLower(Pick(rows, Input, tier, at, input), Pick(rows, Input, tier, at, guarded))
    requires NoLower(Pick(rows, Output, tier, at, input), Pick(rows, Output, tier, at, guarded))
    requires guarded != 0 ==> Pick(rows, Input, tier, at, guarded).Some?
    requires ceiling != 0 ==> Pick(rows, Output, tier, at, guarded).Some?
    ensures
      var held := UsageCharge(rows, tier, at, guarded, ceiling);
      var used := UsageCharge(rows, tier, at, input, output);
      used <= held / f && (input <= guarded ==> used <= held)
  {
    UsageBounds(
      Usage(input, output), Usage(guarded, ceiling), input, output, guarded, ceiling,
      Pick(rows, Input, tier, at, input), Pick(rows, Input, tier, at, guarded),
      Pick(rows, Output, tier, at, input), Pick(rows, Output, tier, at, guarded), f);
  }

  lemma UsageBounds(u: Counts, h: Counts, input: Int64, output: Int64, guarded: Int64, ceiling: Int64,
                    a: Option<Row>, b: Option<Row>, a': Option<Row>, b': Option<Row>, f: real)
    requires u == Usage(input, output) && h == Usage(guarded, ceiling)
    requires 0 <= input && 0 <= guarded && 0 <= output <= ceiling
    requires 0.0 < f <= 1.0 && f * input as real <= guarded as real
    requires NoLower(a, b) && (guarded != 0 ==> b.Some?)
    requires NoLower(a', b') && (ceiling != 0 ==> b'.Some?)
    ensures
      var used := ChargeBy(a, u, Input) + ChargeBy(a', u, Output);
      var held := ChargeBy(b, h, Input) + ChargeBy(b', h, Output);
      used <= held / f && (input <= guarded ==> used <= held)
  {
    ScaledBound(u, h, a, b, a', b', f);
  }

  function UsageCharge(rows: seq<Row>, tier: Tier, at: Time, input: Int64, output: Int64): real {
    ChargeBy(Pick(rows, Input, tier, at, input), Usage(input, output), Input)
      + ChargeBy(Pick(rows, Output, tier, at, input), Usage(input, output), Output)
  }

  lemma ComparableRows(t: Table, req: EstimateRequest, guarded: Int64, thresholds: seq<int>,
                       input: Int64, output: Int64, kind: Kind)
    requires Comparable(t, req, guarded, thresholds, input, output)
    ensures
      var rows := t.rows[Name(req.model, req.provider)];
      NoLower(Pick(rows, kind, req.tier, req.at, input), Pick(rows, kind, req.tier, req.at, guarded))
  {
    hide *;
    ComparableAmounts(t, req, guarded, thresholds, input, output);
    ComparableList(t, req, guarded, thresholds, input, output);
    var rows := t.rows[Name(req.model, req.provider)];
    forall r | r in rows && r.tier == req.tier && 0 < r.from <= input
      ensures r.from <= guarded
    {
      ThresholdsReached(EstimateInputTokens(req.promptBytes), thresholds, GuardOf(req), guarded, input, r.from);
    }
    PickedRowsCompare(rows, kind, req.tier, req.at, guarded, input);
  }

  /** What comparable requests say of the rows of their model. */
  lemma ComparableList(t: Table, req: EstimateRequest, guarded: Int64, thresholds: seq<int>,
                       input: Int64, output: Int64)
    requires Comparable(t, req, guarded, thresholds, input, output)
    ensures Name(req.model, req.provider) in t.rows
    ensures
      var rows := t.rows[Name(req.model, req.provider)];
      && Clear(rows) && (forall r :: r in rows ==> ValidRow(r)) && RatesRise(rows, req.tier, req.at)
      && (forall r :: r in rows && r.tier == req.tier && 0 < r.from ==> r.from in thresholds)
    ensures 0 <= guarded < MAX_INT64 && 0 <= input < MAX_INT64
    ensures Guarded(EstimateInputTokens(req.promptBytes), thresholds, GuardOf(req), guarded)
  {
    hide Guarded, Resolve, RatesRise, ValidRow, Ambiguous, AliasAmbiguous, ValidAlias;
    ComparableAmounts(t, req, guarded, thresholds, input, output);
  }

  lemma ScaledBound(u: Counts, h: Counts, a: Option<Row>, b: Option<Row>, a': Option<Row>, b': Option<Row>, f: real)
    requires 0 <= Count(u, Input) && 0 <= Count(h, Input) && 0 <= Count(u, Output) <= Count(h, Output)
    requires 0.0 < f <= 1.0 && f * Count(u, Input) as real <= Count(h, Input) as real
    requires NoLower(a, b) && (Charged(h, Input) ==> b.Some?)
    requires NoLower(a', b') && (Charged(h, Output) ==> b'.Some?)
    ensures
      var used := ChargeBy(a, u, Input) + ChargeBy(a', u, Output);
      var held := ChargeBy(b, h, Input) + ChargeBy(b', h, Output);
      used <= held / f && (Count(u, Input) <= Count(h, Input) ==> used <= held)
  {
    UsageBound(u, h, a, b, a', b', f);
    DivideOut(f, ChargeBy(a, u, Input) + ChargeBy(a', u, Output), ChargeBy(b, h, Input) + ChargeBy(b', h, Output));
    if Count(u, Input) <= Count(h, Input) {
      UsageBound(u, h, a, b, a', b', 1.0);
    }
  }

  lemma CostOfUsage(t: Table, req: EstimateRequest, input: Int64, output: Int64)
    requires Resolve(t, req.model, req.provider, req.at) == req.model && Name(req.model, req.provider) in t.rows
    requires 0 <= input && 0 <= output
    requires FullyPriced(CostOf(t, req.model, req.provider, req.tier, req.at, Usage(input, output)))
    ensures CostOf(t, req.model, req.provider, req.tier, req.at, Usage(input, output)).cost
         == UsageCharge(t.rows[Name(req.model, req.provider)], req.tier, req.at, input, output)
  {
    ChargesOfUsage(t.rows[Name(req.model, req.provider)], req.tier, req.at, input, output);
  }

  lemma FullyPricedPicks(t: Table, req: EstimateRequest, guarded: Int64)
    requires Resolve(t, req.model, req.provider, req.at) == req.model && Name(req.model, req.provider) in t.rows
    requires 0 <= guarded && 0 <= OutputCeiling(req)
    requires FullyPriced(CostOf(t, req.model, req.provider, req.tier, req.at, Usage(guarded, OutputCeiling(req))))
    ensures
      var rows := t.rows[Name(req.model, req.provider)];
      && (guarded != 0 ==> Pick(rows, Input, req.tier, req.at, guarded).Some?)
      && (OutputCeiling(req) != 0 ==> Pick(rows, Output, req.tier, req.at, guarded).Some?)
  {
    var rows := t.rows[Name(req.model, req.provider)];
    var h := Usage(guarded, OutputCeiling(req));
    ChargesOfUsage(rows, req.tier, req.at, guarded, OutputCeiling(req));
    assert UnknownKinds(rows, req.tier, req.at, h, guarded) == {};
    assert Input !in UnknownKinds(rows, req.tier, req.at, h, guarded);
    assert Output !in UnknownKinds(rows, req.tier, req.at, h, guarded);
  }

  lemma DivideOut(f: real, x: real, y: real)
    requires 0.0 < f && f * x <= y
    ensures x <= y / f
  {
    var q := y / f;
    assert f * q == y;
    assert x > q ==> f * x > f * q by {
      assert f * x - f * q == f * (x - q);
    }
  }

  // ----- names -------------------------------------------------------------

  /** No name that an alias stands for is an alias itself. */
  predicate NoChains(t: Table) {
    forall k :: k in t.aliases ==> forall a :: a in t.aliases[k] ==> Name(a.canonical, k.provider) !in t.aliases
  }

  /** The handler estimates under the name that the requested one stands for. Unless
      aliases chain, that name stands for itself, so that thresholds and prices are
      looked up under the same one. */
  lemma ResolvedStaysResolved(t: Table, model: string, provider: string, at: Time)
    requires NoChains(t)
    ensures Resolve(t, Resolve(t, model, provider, at), provider, at) == Resolve(t, model, provider, at)
  {
  }
}
