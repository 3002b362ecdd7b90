/** What is held for a request, in terms of its bytes, its ceiling and the rows. */
module EstimateLaw {
  import opened Basics
  import opened PriceTable
  import opened Estimate
  import PriceLaw

  /** Four bytes to a token, one more for what is left over. */
  lemma TokensOfBytes(bytes: int)
    ensures bytes <= 0 ==> EstimateInputTokens(bytes) == 0
    ensures 0 < bytes ==> 4 * (EstimateInputTokens(bytes) - 1) <= bytes < 4 * EstimateInputTokens(bytes)
  {
  }

  function FactorOf(req: EstimateRequest): real {
    if 0.0 < req.guardFactor then req.guardFactor else 0.75
  }

  /** The start of a range that the estimate has not reached but may be short of. */
  ghost predicate Near(rows: seq<Row>, tier: Tier, estimate: int, factor: real, start: int) {
    && (exists r :: r in rows && r.tier == tier && r.from == start)
    && 0 < start && estimate < start && factor * start as real <= estimate as real
  }

  /** The guarded total is the estimate or, if there are any, the highest start of a
      range that is near. */
  lemma GuardedIsTheHighest(t: Table, req: EstimateRequest, guarded: Int64, thresholds: seq<int>)
    requires Estimated(t, req, guarded, thresholds)
    ensures
      var rows := if Name(req.model, req.provider) in t.rows then t.rows[Name(req.model, req.provider)] else [];
      var estimate := EstimateInputTokens(req.promptBytes);
      && (guarded == estimate || Near(rows, req.tier, estimate, FactorOf(req), guarded))
      && (forall start :: Near(rows, req.tier, estimate, FactorOf(req), start) ==> start <= guarded)
      && estimate <= guarded
  {
    var rows := RowsAt(t, Name(req.model, req.provider));
    var estimate := EstimateInputTokens(req.promptBytes);
    forall start | Near(rows, req.tier, estimate, FactorOf(req), start)
      ensures start <= guarded
    {
      assert start in thresholds && InBand(estimate, start, GuardOf(req));
    }
  }

  /** What is held: the guarded total at the input rate, and the client's own ceiling,
      or the default if it gave none, at the output rate. */
  lemma HeldPerMillion(t: Table, req: EstimateRequest, guarded: Int64, rate: map<Kind, real>)
    requires PriceTable.Unambiguous(t) && 0 <= guarded < MAX_INT64 && Held(t, req, guarded).Priced?
    requires
      var name := Name(Resolve(t, req.model, req.provider, req.at), req.provider);
      name in t.rows ==>
        forall kind :: kind in rate && PriceLaw.IsRate(t.rows[name], kind, req.tier, req.at, guarded, rate[kind])
    ensures
      var ceiling := if 0 < req.maxTokens then req.maxTokens else req.defaultMaxTokens;
      Held(t, req, guarded).cost * 1000000.0
      == guarded as real * rate[Input] + ceiling as real * rate[Output]
  {
    hide *;
    HeldIs(t, req, guarded);
    HeldCounts(req, guarded);
    var c := Usage(guarded, OutputCeiling(req));
    PriceLaw.CostUnfolds(t, req.model, req.provider, req.tier, req.at, c);
    PriceLaw.CostPerMillion(t, req.model, req.provider, req.tier, req.at, c, rate);
  }

  lemma HeldCounts(req: EstimateRequest, guarded: Int64)
    requires 0 <= guarded
    ensures
      var c := Usage(guarded, OutputCeiling(req));
      var ceiling := if 0 < req.maxTokens then req.maxTokens else req.defaultMaxTokens;
      && PriceLaw.TotalIn(c) == guarded
      && PriceLaw.Tokens(c, Input) == guarded && PriceLaw.Tokens(c, Output) == ceiling
      && PriceLaw.Tokens(c, CachedRead) == PriceLaw.Tokens(c, CacheWrite5m) == PriceLaw.Tokens(c, CacheWrite1h) == 0
      && PriceLaw.Tokens(c, AudioInput) == PriceLaw.Tokens(c, AudioOutput) == 0
  {
  }
}
