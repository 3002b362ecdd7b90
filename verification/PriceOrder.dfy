/** A checked price list prices the same whatever order it was written in. */
module PriceOrder {
  import opened Basics
  import opened PriceTable

  lemma {:induction false} RowsOfCounts(rows: seq<Row>, k: Name, r: Row)
    ensures multiset(RowsOf(rows, k))[r] == if RowName(r) == k then multiset(rows)[r] else 0
  {
    if rows == [] {
    } else {
      var front, last := rows[..|rows| - 1], rows[|rows| - 1];
      RowsOfCounts(front, k, r);
      assert rows == front + [last];
      assert multiset(rows)[r] == multiset(front)[r] + multiset([last])[r];
    }
  }

  lemma {:induction false} AliasesOfCounts(aliases: seq<Alias>, k: Name, a: Alias)
    ensures multiset(AliasesOf(aliases, k))[a] == if AliasName(a) == k then multiset(aliases)[a] else 0
  {
    if aliases == [] {
    } else {
      var front, last := aliases[..|aliases| - 1], aliases[|aliases| - 1];
      AliasesOfCounts(front, k, a);
      assert aliases == front + [last];
      assert multiset(aliases)[a] == multiset(front)[a] + multiset([last])[a];
    }
  }

  lemma GroupsIgnoreOrder(rows: seq<Row>, rows': seq<Row>, k: Name)
    requires multiset(rows) == multiset(rows')
    ensures multiset(RowsOf(rows, k)) == multiset(RowsOf(rows', k))
  {
    hide RowsOf;
    forall r
      ensures multiset(RowsOf(rows, k))[r] == multiset(RowsOf(rows', k))[r]
    {
      RowsOfCounts(rows, k, r);
      RowsOfCounts(rows', k, r);
    }
  }

  lemma AliasGroupsIgnoreOrder(aliases: seq<Alias>, aliases': seq<Alias>, k: Name)
    requires multiset(aliases) == multiset(aliases')
    ensures multiset(AliasesOf(aliases, k)) == multiset(AliasesOf(aliases', k))
  {
    hide AliasesOf;
    forall a
      ensures multiset(AliasesOf(aliases, k))[a] == multiset(AliasesOf(aliases', k))[a]
    {
      AliasesOfCounts(aliases, k, a);
      AliasesOfCounts(aliases', k, a);
    }
  }

  /** Two tables made from the same entries in different orders. */
  ghost predicate Shuffled(t: Table, t': Table) {
    exists rows, aliases, rows', aliases' ::
      && Holds(t, rows, aliases) && Holds(t', rows', aliases')
      && multiset(rows) == multiset(rows') && multiset(aliases) == multiset(aliases')
  }

  lemma ShuffledGroups(t: Table, t': Table, k: Name)
    requires Shuffled(t, t')
    ensures multiset(RowsAt(t, k)) == multiset(RowsAt(t', k))
    ensures multiset(AliasesAt(t, k)) == multiset(AliasesAt(t', k))
    ensures k in t.rows <==> k in t'.rows
  {
    hide RowsOf, AliasesOf;
    var rows, aliases, rows', aliases' :|
      && Holds(t, rows, aliases) && Holds(t', rows', aliases')
      && multiset(rows) == multiset(rows') && multiset(aliases) == multiset(aliases');
    GroupsIgnoreOrder(rows, rows', k);
    AliasGroupsIgnoreOrder(aliases, aliases', k);
    EmptyTogether(RowsOf(rows, k), RowsOf(rows', k));
  }

  lemma EmptyTogether<T>(s: seq<T>, s': seq<T>)
    requires multiset(s) == multiset(s')
    ensures s == [] <==> s' == []
  {
    assert |multiset(s)| == |s| && |multiset(s')| == |s'|;
  }

  lemma ClearAt(t: Table, k: Name)
    requires Unambiguous(t)
    ensures Clear(RowsAt(t, k))
    ensures forall i, j :: 0 <= i < j < |AliasesAt(t, k)| ==> !AliasAmbiguous(AliasesAt(t, k)[i], AliasesAt(t, k)[j])
  {
  }

  lemma ResolveIgnoresOrder(t: Table, t': Table, model: string, provider: string, at: Time)
    requires Shuffled(t, t') && Unambiguous(t)
    ensures Resolve(t, model, provider, at) == Resolve(t', model, provider, at)
  {
    hide Shuffled, Unambiguous;
    var k := Name(model, provider);
    ShuffledGroups(t, t', k);
    ClearAt(t, k);
    FirstAliasIgnoresOrder(AliasesAt(t, k), AliasesAt(t', k), at);
  }

  lemma ChargesIgnoreOrder(rows: seq<Row>, rows': seq<Row>, tier: Tier, at: Time, c: Counts, n: int)
    requires multiset(rows) == multiset(rows') && Clear(rows) && n < MAX_INT64
    ensures PricedKinds(rows, tier, at, c, n) == PricedKinds(rows', tier, at, c, n)
    ensures UnknownKinds(rows, tier, at, c, n) == UnknownKinds(rows', tier, at, c, n)
    ensures Charges(rows, tier, at, c, n) == Charges(rows', tier, at, c, n)
  {
    hide Pick, ChargeBy, Clear;
    forall k: Kind
      ensures Pick(rows, k, tier, at, n) == Pick(rows', k, tier, at, n)
    {
      PickIgnoresOrder(rows, rows', k, tier, at, n);
    }
  }

  /** The same names stand for the same models and every request has the same
      price, for input totals below the largest 64-bit integer. */
  lemma CostIgnoresOrder(t: Table, t': Table, model: string, provider: string, tier: Tier, at: Time, c: Counts)
    requires Shuffled(t, t') && Unambiguous(t) && Wrap(InputTokens(c)) < MAX_INT64
    ensures CostOf(t, model, provider, tier, at, c) == CostOf(t', model, provider, tier, at, c)
  {
    hide Shuffled, Unambiguous, Resolve, Charges, PricedKinds, UnknownKinds, Clear, Wrap, InputTokens;
    ResolveIgnoresOrder(t, t', model, provider, at);
    var k := Name(Resolve(t, model, provider, at), provider);
    ShuffledGroups(t, t', k);
    ClearAt(t, k);
    ChargesIgnoreOrder(RowsAt(t, k), RowsAt(t', k), tier, at, c, Wrap(InputTokens(c)));
  }
}
