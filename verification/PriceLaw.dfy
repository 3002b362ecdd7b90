/** What a price is, in terms of the rows of the list alone. */
module PriceLaw {
  import opened Basics
  import opened PriceTable

  /** The row that charges `kind`: of the tier, in force at the instant, and with the
      input total in its range. */
  ghost predicate IsRowFor(r: Row, kind: Kind, tier: Tier, at: Time, total: int) {
    && r.kind == kind && r.tier == tier
    && r.since <= at && (r.until != 0 ==> at < r.until)
    && r.from <= total && (r.to != 0 ==> total < r.to)
  }

  /** Dollars per million tokens of the kind, zero where there is no row for it. */
  ghost predicate IsRate(rows: seq<Row>, kind: Kind, tier: Tier, at: Time, total: int, rate: real) {
    if exists r :: r in rows && IsRowFor(r, kind, tier, at, total)
    then exists r :: r in rows && IsRowFor(r, kind, tier, at, total) && rate == r.rate
    else rate == 0.0
  }

  function Tokens(c: Counts, kind: Kind): int {
    if kind in c then c[kind] else 0
  }

  function Positive(n: int): nat {
    if n < 0 then 0 else n
  }

  /** All tokens that went in, of every sort that is billed by its size. */
  function TotalIn(c: Counts): nat {
    Positive(Tokens(c, Input)) + Positive(Tokens(c, CachedRead)) + Positive(Tokens(c, AudioInput))
    + Positive(Tokens(c, CacheWrite5m)) + Positive(Tokens(c, CacheWrite1h))
  }

  lemma TotalInIs(c: Counts)
    ensures InputTokens(c) == TotalIn(c)
  {
  }

  // ----- the rows of a model -----------------------------------------------

  /** The rows that a table keeps for a model of a provider are those that were given
      for it, each as often, and no others; and so are the aliases for a name. */
  lemma RowsAreGiven(t: Table, rows: seq<Row>, aliases: seq<Alias>, model: string, provider: string, r: Row, a: Alias)
    requires Holds(t, rows, aliases)
    ensures multiset(RowsAt(t, Name(model, provider)))[r]
         == if r.model == model && r.provider == provider then multiset(rows)[r] else 0
    ensures multiset(AliasesAt(t, Name(model, provider)))[a]
         == if a.alias == model && a.provider == provider then multiset(aliases)[a] else 0
  {
    RowsGrouped(rows, model, provider, r);
    AliasesGrouped(aliases, model, provider, a);
  }

  lemma {:induction false} RowsGrouped(rows: seq<Row>, model: string, provider: string, r: Row)
    ensures multiset(RowsOf(rows, Name(model, provider)))[r]
         == if r.model == model && r.provider == provider then multiset(rows)[r] else 0
  {
    if rows != [] {
      RowsGrouped(rows[..|rows| - 1], model, provider, r);
      assert rows == rows[..|rows| - 1] + [rows[|rows| - 1]];
    }
  }

  lemma {:induction false} AliasesGrouped(aliases: seq<Alias>, model: string, provider: string, a: Alias)
    ensures multiset(AliasesOf(aliases, Name(model, provider)))[a]
         == if a.alias == model && a.provider == provider then multiset(aliases)[a] else 0
  {
    if aliases != [] {
      AliasesGrouped(aliases[..|aliases| - 1], model, provider, a);
      assert aliases == aliases[..|aliases| - 1] + [aliases[|aliases| - 1]];
    }
  }

  /** In a list without overlaps there is one rate at most. */
  lemma OneRate(rows: seq<Row>, kind: Kind, tier: Tier, at: Time, total: int, a: Row, b: Row)
    requires Clear(rows) && total < MAX_INT64 && a in rows && b in rows
    requires IsRowFor(a, kind, tier, at, total) && IsRowFor(b, kind, tier, at, total)
    ensures a == b
  {
    CoveringRowIsUnique(rows, a, b, at, total);
  }

  lemma PickedRate(rows: seq<Row>, kind: Kind, tier: Tier, at: Time, total: int, rate: real)
    requires Clear(rows) && total < MAX_INT64 && IsRate(rows, kind, tier, at, total, rate)
    ensures
      var r := Pick(rows, kind, tier, at, total);
      && (r.Some? <==> exists r :: r in rows && IsRowFor(r, kind, tier, at, total))
      && rate == if r.Some? then r.value.rate else 0.0
  {
    var r := Pick(rows, kind, tier, at, total);
    if r.Some? {
      assert IsRowFor(r.value, kind, tier, at, total);
      var x :| x in rows && IsRowFor(x, kind, tier, at, total) && rate == x.rate;
      OneRate(rows, kind, tier, at, total, r.value, x);
    }
  }

  /** One kind: its count times its rate, a millionth of it. */
  lemma ChargeIs(rows: seq<Row>, kind: Kind, tier: Tier, at: Time, c: Counts, total: int, rate: real)
    requires Clear(rows) && total < MAX_INT64 && IsRate(rows, kind, tier, at, total, rate) && kind != Reasoning
    ensures Charge(rows, tier, at, c, total, kind) * 1000000.0 == Tokens(c, kind) as real * rate
  {
    hide Pick;
    PickedRate(rows, kind, tier, at, total, rate);
  }

  /** Whatever is priced costs the sum, over the seven kinds that are billed, of their
      counts times their rates, a million tokens at a time; the rates are those for the
      whole of the input, and reasoning is not billed apart. */
  lemma CostPerMillion(t: Table, model: string, provider: string, tier: Tier, at: Time, c: Counts,
                       rate: map<Kind, real>)
    requires Unambiguous(t) && TotalIn(c) < MAX_INT64
    requires CostOf(t, model, provider, tier, at, c).Priced?
    requires
      var name := Name(Resolve(t, model, provider, at), provider);
      name in t.rows ==>
        forall kind :: kind in rate && IsRate(t.rows[name], kind, tier, at, TotalIn(c), rate[kind])
    ensures
      CostOf(t, model, provider, tier, at, c).cost * 1000000.0
      == Tokens(c, Input) as real * rate[Input] + Tokens(c, Output) as real * rate[Output]
         + Tokens(c, CachedRead) as real * rate[CachedRead]
         + Tokens(c, CacheWrite5m) as real * rate[CacheWrite5m]
         + Tokens(c, CacheWrite1h) as real * rate[CacheWrite1h]
         + Tokens(c, AudioInput) as real * rate[AudioInput] + Tokens(c, AudioOutput) as real * rate[AudioOutput]
  {
    hide *;
    CostUnfolds(t, model, provider, tier, at, c);
    var rows, n := t.rows[Name(Resolve(t, model, provider, at), provider)], TotalIn(c);
    RowsAreClear(t, Name(Resolve(t, model, provider, at), provider));
    NotReasoning();
    ChargeIs(rows, Input, tier, at, c, n, rate[Input]);
    ChargeIs(rows, Output, tier, at, c, n, rate[Output]);
    ChargeIs(rows, CachedRead, tier, at, c, n, rate[CachedRead]);
    ChargeIs(rows, CacheWrite5m, tier, at, c, n, rate[CacheWrite5m]);
    ChargeIs(rows, CacheWrite1h, tier, at, c, n, rate[CacheWrite1h]);
    ChargeIs(rows, AudioInput, tier, at, c, n, rate[AudioInput]);
    ChargeIs(rows, AudioOutput, tier, at, c, n, rate[AudioOutput]);
    ChargesAddUp(rows, tier, at, c, n);
  }

  lemma NotReasoning()
    ensures Reasoning !in {Input, Output, CachedRead, CacheWrite5m, CacheWrite1h, AudioInput, AudioOutput}
  {
  }

  lemma RowsAreClear(t: Table, name: Name)
    requires Unambiguous(t) && name in t.rows
    ensures Clear(t.rows[name])
  {
    hide Ambiguous, AliasAmbiguous;
  }

  lemma ChargesAddUp(rows: seq<Row>, tier: Tier, at: Time, c: Counts, n: int)
    ensures Charges(rows, tier, at, c, n) * 1000000.0
         == Charge(rows, tier, at, c, n, Input) * 1000000.0 + Charge(rows, tier, at, c, n, Output) * 1000000.0
            + Charge(rows, tier, at, c, n, CachedRead) * 1000000.0
            + Charge(rows, tier, at, c, n, CacheWrite5m) * 1000000.0
            + Charge(rows, tier, at, c, n, CacheWrite1h) * 1000000.0
            + Charge(rows, tier, at, c, n, AudioInput) * 1000000.0
            + Charge(rows, tier, at, c, n, AudioOutput) * 1000000.0
  {
    hide Charge;
  }

  /** The price for a known name, and its exact input total. */
  lemma CostUnfolds(t: Table, model: string, provider: string, tier: Tier, at: Time, c: Counts)
    requires TotalIn(c) < MAX_INT64
    ensures
      var name, p := Name(Resolve(t, model, provider, at), provider), CostOf(t, model, provider, tier, at, c);
      && (name !in t.rows ==> p == Unpriced({}))
      && (name in t.rows ==>
            var rows, n := t.rows[name], TotalIn(c);
            && (p.NegativeCount? <==> exists k :: k in c && c[k] < 0 && Billable(k))
            && (!p.NegativeCount? ==> p.unknown == UnknownKinds(rows, tier, at, c, n))
            && (p.Unpriced? ==> PricedKinds(rows, tier, at, c, n) == {} && p.unknown != {})
            && (p.Priced? ==>
                  && p.priced == PricedKinds(rows, tier, at, c, n)
                  && p.cost == Charges(rows, tier, at, c, n)))
  {
    hide Charges, InputTokens, TotalIn, PricedKinds, UnknownKinds, Resolve;
    TotalInIs(c);
    NoWrap(TotalIn(c));
  }

  lemma NoWrap(n: nat)
    requires n < MAX_INT64
    ensures Wrap(n) == n
  {
  }

  /** When there is a price, and which: none for a count below zero, none where no kind
      with a count has a row, and a partial one where some have. */
  lemma PricedExactly(t: Table, model: string, provider: string, tier: Tier, at: Time, c: Counts, kind: Kind)
    requires Unambiguous(t) && TotalIn(c) < MAX_INT64
    ensures
      var name, p := Name(Resolve(t, model, provider, at), provider), CostOf(t, model, provider, tier, at, c);
      && (name !in t.rows ==> p == Unpriced({}))
      && (name in t.rows ==>
            && (p.NegativeCount? <==> exists k :: k != Reasoning && Tokens(c, k) < 0)
            && (!p.NegativeCount? ==>
                  var charged := kind != Reasoning && Tokens(c, kind) != 0;
                  var known := exists r :: r in t.rows[name] && IsRowFor(r, kind, tier, at, TotalIn(c));
                  && (kind in p.unknown <==> charged && !known)
                  && (p.Priced? ==> (kind in p.priced <==> charged && known))
                  && (p.Unpriced? ==> !(charged && known) && p.unknown != {})))
  {
    hide *;
    CostUnfolds(t, model, provider, tier, at, c);
    var name := Name(Resolve(t, model, provider, at), provider);
    if name in t.rows {
      KnownIs(t.rows[name], kind, tier, at, TotalIn(c));
      NegativeIs(c);
      KindsAre(t.rows[name], kind, tier, at, c, TotalIn(c));
    }
  }

  lemma KindsAre(rows: seq<Row>, kind: Kind, tier: Tier, at: Time, c: Counts, total: int)
    ensures
      var charged, known := kind != Reasoning && Tokens(c, kind) != 0, Pick(rows, kind, tier, at, total).Some?;
      && (kind in PricedKinds(rows, tier, at, c, total) <==> charged && known)
      && (kind in UnknownKinds(rows, tier, at, c, total) <==> charged && !known)
  {
    hide Pick;
  }

  lemma KnownIs(rows: seq<Row>, kind: Kind, tier: Tier, at: Time, total: int)
    ensures Pick(rows, kind, tier, at, total).Some? <==> exists r :: r in rows && IsRowFor(r, kind, tier, at, total)
  {
    var r := Pick(rows, kind, tier, at, total);
    if r.Some? {
      assert IsRowFor(r.value, kind, tier, at, total);
    }
  }

  lemma NegativeIs(c: Counts)
    ensures (exists k :: k in c && c[k] < 0 && Billable(k)) <==> exists k :: k != Reasoning && Tokens(c, k) < 0
  {
    if k :| k in c && c[k] < 0 && Billable(k) {
      assert Tokens(c, k) < 0;
    }
    if k :| k != Reasoning && Tokens(c, k) < 0 {
      assert k in c && Billable(k);
    }
  }

  /** A name stands for what the alias in force says, and for itself without one. */
  lemma ResolvesTo(t: Table, model: string, provider: string, at: Time)
    requires Unambiguous(t)
    ensures
      var aliases := if Name(model, provider) in t.aliases then t.aliases[Name(model, provider)] else [];
      && (forall a :: a in aliases && a.since <= at && (a.until != 0 ==> at < a.until) ==>
            Resolve(t, model, provider, at) == a.canonical)
      && ((forall a :: a in aliases ==> !(a.since <= at && (a.until != 0 ==> at < a.until))) ==>
            Resolve(t, model, provider, at) == model)
  {
    var aliases := AliasesAt(t, Name(model, provider));
    var found := FirstAlias(aliases, at);
    forall a | a in aliases && a.since <= at && (a.until != 0 ==> at < a.until)
      ensures found == Some(a)
    {
      assert AliasCovers(a, at);
      OneAlias(aliases, a, found.value, at);
    }
  }

  lemma OneAlias(aliases: seq<Alias>, a: Alias, b: Alias, at: Time)
    requires forall i, j :: 0 <= i < j < |aliases| ==> !AliasAmbiguous(aliases[i], aliases[j])
    requires a in aliases && b in aliases && AliasCovers(a, at) && AliasCovers(b, at)
    ensures a == b
  {
    var i :| 0 <= i < |aliases| && aliases[i] == a;
    var j :| 0 <= j < |aliases| && aliases[j] == b;
    assert AliasAmbiguous(a, b) && AliasAmbiguous(b, a);
    assert !(i < j) && !(j < i);
  }

  /** What is refused of a row: a field without a name, a negative rate, a period that
      does not begin or ends before it does, a range that ends before it begins. */
  lemma RefusedExactly(r: Row)
    ensures !ValidRow(r)
       <==> || "" in [r.model, r.provider, r.source] || r.rate < 0.0
            || r.since == 0 || (r.until != 0 && r.until <= r.since)
            || r.from < 0 || (r.to != 0 && r.to <= r.from)
  {
  }

  lemma RefusedAliasExactly(a: Alias)
    ensures !ValidAlias(a)
       <==> "" in [a.alias, a.canonical, a.provider] || a.since == 0 || (a.until != 0 && a.until <= a.since)
  {
  }
}
