/** The price list: a checked table, first-match lookup, and the cost of a request. */
module PriceTable {
  import opened Basics

  type Time = int
  const ZERO_TIME: Time := 0

  datatype Kind = Input | Output | CachedRead | CacheWrite5m | CacheWrite1h | Reasoning | AudioInput | AudioOutput

  datatype Tier = Standard | Flex | Priority | Fast | Batch | GeoUS

  predicate Billable(k: Kind) {
    k != Reasoning
  }

  predicate CountsTowardInputTier(k: Kind) {
    k == Input || k == CachedRead || k == CacheWrite5m || k == CacheWrite1h || k == AudioInput
  }

  type Counts = map<Kind, Int64>

  /** A rate. `to` is 0 for a range without end, `until` the zero time for a period
      without end. */
  datatype Row = Row(
    model: string, provider: string, kind: Kind, tier: Tier, rate: real,
    from: Int64, to: Int64, since: Time, until: Time, source: string)

  datatype Alias = Alias(alias: string, canonical: string, provider: string, since: Time, until: Time)

  datatype Name = Name(model: string, provider: string)

  datatype Table = Table(rows: map<Name, seq<Row>>, aliases: map<Name, seq<Alias>>)

  datatype Rejection = InvalidRow | InvalidAlias | DanglingAlias | Overlap

  datatype Result<T> = Ok(value: T) | Err(why: Rejection)

  // ----- coverage and overlap ----------------------------------------------

  predicate InForce(since: Time, until: Time, at: Time) {
    at >= since && (until == ZERO_TIME || at < until)
  }

  predicate Covers(r: Row, at: Time, n: int) {
    InForce(r.since, r.until, at) && n >= r.from && (r.to == 0 || n < r.to)
  }

  predicate AliasCovers(a: Alias, at: Time) {
    InForce(a.since, a.until, at)
  }

  predicate ValidRow(r: Row) {
    && r.model != "" && r.provider != "" && r.rate >= 0.0 && r.since != ZERO_TIME
    && (r.until == ZERO_TIME || r.until > r.since)
    && r.from >= 0 && (r.to == 0 || r.to > r.from)
    && r.source != ""
  }

  predicate ValidAlias(a: Alias) {
    && a.alias != "" && a.canonical != "" && a.provider != "" && a.since != ZERO_TIME
    && (a.until == ZERO_TIME || a.until > a.since)
  }

  function RangeEnd(to: Int64): Int64 {
    if to == 0 then MAX_INT64 else to
  }

  predicate RangesOverlap(aFrom: Int64, aTo: Int64, bFrom: Int64, bTo: Int64) {
    aFrom < RangeEnd(bTo) && bFrom < RangeEnd(aTo)
  }

  predicate PeriodsOverlap(aSince: Time, aUntil: Time, bSince: Time, bUntil: Time) {
    !(aUntil != ZERO_TIME && aUntil <= bSince) && !(bUntil != ZERO_TIME && bUntil <= aSince)
  }

  predicate Clash(a: Row, b: Row) {
    && a.kind == b.kind && a.tier == b.tier
    && RangesOverlap(a.from, a.to, b.from, b.to)
    && PeriodsOverlap(a.since, a.until, b.since, b.until)
  }

  predicate AliasClash(a: Alias, b: Alias) {
    PeriodsOverlap(a.since, a.until, b.since, b.until)
  }

  /** Two rows that would both price the same tokens of the same request. */
  ghost predicate Ambiguous(a: Row, b: Row) {
    && a.kind == b.kind && a.tier == b.tier
    && exists at, n: int :: n < MAX_INT64 && Covers(a, at, n) && Covers(b, at, n)
  }

  ghost predicate AliasAmbiguous(a: Alias, b: Alias) {
    exists at :: AliasCovers(a, at) && AliasCovers(b, at)
  }

  lemma PeriodsOverlapExactly(a: Time, aUntil: Time, b: Time, bUntil: Time)
    requires aUntil == ZERO_TIME || aUntil > a
    requires bUntil == ZERO_TIME || bUntil > b
    ensures PeriodsOverlap(a, aUntil, b, bUntil) <==> exists at :: InForce(a, aUntil, at) && InForce(b, bUntil, at)
  {
    if PeriodsOverlap(a, aUntil, b, bUntil) {
      var at := Max(a, b);
      assert InForce(a, aUntil, at) && InForce(b, bUntil, at);
    }
  }

  /** The overlap test finds exactly the pairs that share a covered point, for
      input totals below the largest 64-bit integer. */
  lemma ClashExactly(a: Row, b: Row)
    requires ValidRow(a) && ValidRow(b)
    ensures Clash(a, b) <==> Ambiguous(a, b)
  {
    PeriodsOverlapExactly(a.since, a.until, b.since, b.until);
    if Clash(a, b) {
      var at :| InForce(a.since, a.until, at) && InForce(b.since, b.until, at);
      var n := Max(a.from, b.from);
      assert n < MAX_INT64 && Covers(a, at, n) && Covers(b, at, n);
    }
    if Ambiguous(a, b) {
      var at, n: int :| n < MAX_INT64 && Covers(a, at, n) && Covers(b, at, n);
      assert InForce(a.since, a.until, at) && InForce(b.since, b.until, at);
    }
  }

  lemma AliasClashExactly(a: Alias, b: Alias)
    requires ValidAlias(a) && ValidAlias(b)
    ensures AliasClash(a, b) <==> AliasAmbiguous(a, b)
  {
    PeriodsOverlapExactly(a.since, a.until, b.since, b.until);
    if AliasAmbiguous(a, b) {
      var at :| AliasCovers(a, at) && AliasCovers(b, at);
      assert InForce(a.since, a.until, at) && InForce(b.since, b.until, at);
    }
    if AliasClash(a, b) {
      var at :| InForce(a.since, a.until, at) && InForce(b.since, b.until, at);
      assert AliasCovers(a, at) && AliasCovers(b, at);
    }
  }

  // ----- building a table --------------------------------------------------

  function RowName(r: Row): Name {
    Name(r.model, r.provider)
  }

  function AliasName(a: Alias): Name {
    Name(a.alias, a.provider)
  }

  function RowsOf(rows: seq<Row>, k: Name): seq<Row> {
    if rows == [] then []
    else
      var last := rows[|rows| - 1];
      RowsOf(rows[..|rows| - 1], k) + (if RowName(last) == k then [last] else [])
  }

  function AliasesOf(aliases: seq<Alias>, k: Name): seq<Alias> {
    if aliases == [] then []
    else
      var last := aliases[|aliases| - 1];
      AliasesOf(aliases[..|aliases| - 1], k) + (if AliasName(last) == k then [last] else [])
  }

  function RowsAt(t: Table, k: Name): seq<Row> {
    if k in t.rows then t.rows[k] else []
  }

  function AliasesAt(t: Table, k: Name): seq<Alias> {
    if k in t.aliases then t.aliases[k] else []
  }

  /** No request is priced by two rows and no name stands for two models. */
  ghost predicate Unambiguous(t: Table) {
    && (forall k, i, j :: k in t.rows && 0 <= i < j < |t.rows[k]| ==> !Ambiguous(t.rows[k][i], t.rows[k][j]))
    && (forall k, i, j :: k in t.aliases && 0 <= i < j < |t.aliases[k]| ==>
          !AliasAmbiguous(t.aliases[k][i], t.aliases[k][j]))
  }

  predicate AllValid(t: Table) {
    && (forall k :: k in t.rows ==> forall r :: r in t.rows[k] ==> ValidRow(r))
    && (forall k :: k in t.aliases ==> forall a :: a in t.aliases[k] ==> ValidAlias(a))
  }

  predicate NoDangling(t: Table) {
    forall k :: k in t.aliases ==> forall a :: a in t.aliases[k] ==> Name(a.canonical, a.provider) in t.rows
  }

  ghost predicate Holds(t: Table, rows: seq<Row>, aliases: seq<Alias>) {
    && (forall k :: RowsAt(t, k) == RowsOf(rows, k))
    && (forall k :: AliasesAt(t, k) == AliasesOf(aliases, k))
    && (forall k :: k in t.rows <==> RowsOf(rows, k) != [])
    && (forall k :: k in t.aliases <==> AliasesOf(aliases, k) != [])
  }

  lemma NothingGrouped()
    ensures forall k :: RowsOf([], k) == [] && AliasesOf([], k) == []
  {
  }

  lemma OneMoreRow(rows: seq<Row>, x: Row)
    ensures forall k :: RowsOf(rows + [x], k) == RowsOf(rows, k) + if RowName(x) == k then [x] else []
  {
    assert (rows + [x])[..|rows|] == rows;
  }

  lemma OneMoreAlias(aliases: seq<Alias>, x: Alias)
    ensures forall k :: AliasesOf(aliases + [x], k) == AliasesOf(aliases, k) + if AliasName(x) == k then [x] else []
  {
    assert (aliases + [x])[..|aliases|] == aliases;
  }

  method GroupRows(rows: seq<Row>) returns (r: Result<map<Name, seq<Row>>>)
    ensures r.Err? <==> exists x :: x in rows && !ValidRow(x)
    ensures r.Err? ==> r.why == InvalidRow
    ensures r.Ok? ==> forall k ::
      (k in r.value <==> RowsOf(rows, k) != []) && (k in r.value ==> r.value[k] == RowsOf(rows, k))
  {
    hide RowsOf, RowName, ValidRow;
    NothingGrouped();
    var m: map<Name, seq<Row>> := map[];
    for i := 0 to |rows|
      invariant forall x :: x in rows[..i] ==> ValidRow(x)
      invariant forall k :: (k in m <==> RowsOf(rows[..i], k) != []) && (k in m ==> m[k] == RowsOf(rows[..i], k))
    {
      var x := rows[i];
      if !ValidRow(x) {
        return Err(InvalidRow);
      }
      OneMoreRow(rows[..i], x);
      assert rows[..i + 1] == rows[..i] + [x];
      m := m[RowName(x) := (if RowName(x) in m then m[RowName(x)] else []) + [x]];
    }
    assert rows[..|rows|] == rows;
    return Ok(m);
  }

  method GroupAliases(aliases: seq<Alias>) returns (r: Result<map<Name, seq<Alias>>>)
    ensures r.Err? <==> exists x :: x in aliases && !ValidAlias(x)
    ensures r.Err? ==> r.why == InvalidAlias
    ensures r.Ok? ==> forall k ::
      (k in r.value <==> AliasesOf(aliases, k) != []) && (k in r.value ==> r.value[k] == AliasesOf(aliases, k))
  {
    hide AliasesOf, AliasName, ValidAlias;
    NothingGrouped();
    var m: map<Name, seq<Alias>> := map[];
    for i := 0 to |aliases|
      invariant forall x :: x in aliases[..i] ==> ValidAlias(x)
      invariant forall k ::
        (k in m <==> AliasesOf(aliases[..i], k) != []) && (k in m ==> m[k] == AliasesOf(aliases[..i], k))
    {
      var x := aliases[i];
      if !ValidAlias(x) {
        return Err(InvalidAlias);
      }
      OneMoreAlias(aliases[..i], x);
      assert aliases[..i + 1] == aliases[..i] + [x];
      m := m[AliasName(x) := (if AliasName(x) in m then m[AliasName(x)] else []) + [x]];
    }
    assert aliases[..|aliases|] == aliases;
    return Ok(m);
  }

  method SomeClash(rows: seq<Row>) returns (found: bool)
    ensures found <==> exists i, j :: 0 <= i < j < |rows| && Clash(rows[i], rows[j])
  {
    for i := 0 to |rows|
      invariant forall p, q :: 0 <= p < i && p < q < |rows| ==> !Clash(rows[p], rows[q])
    {
      for j := i + 1 to |rows|
        invariant forall q :: i < q < j ==> !Clash(rows[i], rows[q])
      {
        if Clash(rows[i], rows[j]) {
          return true;
        }
      }
    }
    return false;
  }

  method SomeAliasClash(aliases: seq<Alias>) returns (found: bool)
    ensures found <==> exists i, j :: 0 <= i < j < |aliases| && AliasClash(aliases[i], aliases[j])
  {
    for i := 0 to |aliases|
      invariant forall p, q :: 0 <= p < i && p < q < |aliases| ==> !AliasClash(aliases[p], aliases[q])
    {
      for j := i + 1 to |aliases|
        invariant forall q :: i < q < j ==> !AliasClash(aliases[i], aliases[q])
      {
        if AliasClash(aliases[i], aliases[j]) {
          return true;
        }
      }
    }
    return false;
  }

  /** A table passes exactly when it is unambiguous. */
  method CheckOverlaps(t: Table) returns (ok: bool)
    requires AllValid(t)
    ensures ok <==> Unambiguous(t)
  {
    var names := t.rows.Keys;
    while names != {}
      invariant names <= t.rows.Keys
      invariant forall k, i, j :: k in t.rows && k !in names && 0 <= i < j < |t.rows[k]| ==>
        !Ambiguous(t.rows[k][i], t.rows[k][j])
      decreases names
    {
      var k :| k in names;
      ClashesExactly(t.rows[k]);
      var clash := SomeClash(t.rows[k]);
      if clash {
        return false;
      }
      names := names - {k};
    }
    names := t.aliases.Keys;
    while names != {}
      invariant names <= t.aliases.Keys
      invariant forall k, i, j :: k in t.aliases && k !in names && 0 <= i < j < |t.aliases[k]| ==>
        !AliasAmbiguous(t.aliases[k][i], t.aliases[k][j])
      decreases names
    {
      var k :| k in names;
      AliasClashesExactly(t.aliases[k]);
      var clash := SomeAliasClash(t.aliases[k]);
      if clash {
        return false;
      }
      names := names - {k};
    }
    return true;
  }

  lemma ClashesExactly(rows: seq<Row>)
    requires forall r :: r in rows ==> ValidRow(r)
    ensures forall i, j :: 0 <= i < j < |rows| ==> (Clash(rows[i], rows[j]) <==> Ambiguous(rows[i], rows[j]))
  {
    forall i, j | 0 <= i < j < |rows|
      ensures Clash(rows[i], rows[j]) <==> Ambiguous(rows[i], rows[j])
    {
      ClashExactly(rows[i], rows[j]);
    }
  }

  lemma AliasClashesExactly(aliases: seq<Alias>)
    requires forall a :: a in aliases ==> ValidAlias(a)
    ensures forall i, j :: 0 <= i < j < |aliases| ==>
      (AliasClash(aliases[i], aliases[j]) <==> AliasAmbiguous(aliases[i], aliases[j]))
  {
    forall i, j | 0 <= i < j < |aliases|
      ensures AliasClash(aliases[i], aliases[j]) <==> AliasAmbiguous(aliases[i], aliases[j])
    {
      AliasClashExactly(aliases[i], aliases[j]);
    }
  }

  method SomeDangling(t: Table) returns (found: bool)
    ensures found <==> !NoDangling(t)
  {
    var names := t.aliases.Keys;
    while names != {}
      invariant names <= t.aliases.Keys
      invariant forall k :: k in t.aliases && k !in names ==>
        forall a :: a in t.aliases[k] ==> Name(a.canonical, a.provider) in t.rows
      decreases names
    {
      var k :| k in names;
      for i := 0 to |t.aliases[k]|
        invariant forall a :: a in t.aliases[k][..i] ==> Name(a.canonical, a.provider) in t.rows
      {
        if Name(t.aliases[k][i].canonical, t.aliases[k][i].provider) !in t.rows {
          return true;
        }
      }
      assert t.aliases[k][..|t.aliases[k]|] == t.aliases[k];
      names := names - {k};
    }
    return false;
  }

  lemma {:induction false} RowsOfMember(rows: seq<Row>, k: Name, r: Row)
    ensures r in RowsOf(rows, k) <==> r in rows && RowName(r) == k
  {
    if rows != [] {
      var last := rows[|rows| - 1];
      RowsOfMember(rows[..|rows| - 1], k, r);
      assert rows == rows[..|rows| - 1] + [last];
    }
  }

  lemma {:induction false} AliasesOfMember(aliases: seq<Alias>, k: Name, a: Alias)
    ensures a in AliasesOf(aliases, k) <==> a in aliases && AliasName(a) == k
  {
    if aliases != [] {
      var last := aliases[|aliases| - 1];
      AliasesOfMember(aliases[..|aliases| - 1], k, a);
      assert aliases == aliases[..|aliases| - 1] + [last];
    }
  }

  method NewTable(rows: seq<Row>, aliases: seq<Alias>) returns (r: Result<Table>)
    ensures r.Ok? ==> Holds(r.value, rows, aliases) && AllValid(r.value) && NoDangling(r.value) && Unambiguous(r.value)
    ensures r.Err? ==> match r.why
      case InvalidRow => exists x :: x in rows && !ValidRow(x)
      case InvalidAlias => exists x :: x in aliases && !ValidAlias(x)
      case DanglingAlias => forall t :: Holds(t, rows, aliases) ==> !NoDangling(t)
      case Overlap => forall t :: Holds(t, rows, aliases) ==> !Unambiguous(t)
  {
    var rowGroups := GroupRows(rows);
    if rowGroups.Err? {
      return Err(rowGroups.why);
    }
    var aliasGroups := GroupAliases(aliases);
    if aliasGroups.Err? {
      return Err(aliasGroups.why);
    }
    var t := Table(rowGroups.value, aliasGroups.value);
    assert Holds(t, rows, aliases);
    assert AllValid(t) by {
      forall k, x | k in t.rows && x in t.rows[k] ensures ValidRow(x) { RowsOfMember(rows, k, x); }
      forall k, x | k in t.aliases && x in t.aliases[k] ensures ValidAlias(x) { AliasesOfMember(aliases, k, x); }
    }
    forall t' | Holds(t', rows, aliases) ensures t' == t { HoldsIsUnique(t, t', rows, aliases); }
    var dangling := SomeDangling(t);
    if dangling {
      return Err(DanglingAlias);
    }
    var ok := CheckOverlaps(t);
    return if ok then Ok(t) else Err(Overlap);
  }

  lemma HoldsIsUnique(t: Table, t': Table, rows: seq<Row>, aliases: seq<Alias>)
    requires Holds(t, rows, aliases) && Holds(t', rows, aliases)
    ensures t == t'
  {
    assert t.rows.Keys == t'.rows.Keys;
    assert forall k :: k in t.rows ==> t.rows[k] == RowsAt(t, k) == RowsAt(t', k) == t'.rows[k];
    assert t.rows == t'.rows;
    assert t.aliases.Keys == t'.aliases.Keys;
    assert forall k :: k in t.aliases ==> t.aliases[k] == AliasesAt(t, k) == AliasesAt(t', k) == t'.aliases[k];
    assert t.aliases == t'.aliases;
  }

  // ----- lookup ------------------------------------------------------------

  function Pick(rows: seq<Row>, kind: Kind, tier: Tier, at: Time, n: int): (r: Option<Row>)
    ensures r.Some? ==> r.value in rows && r.value.kind == kind && r.value.tier == tier && Covers(r.value, at, n)
    ensures r.None? ==> forall x :: x in rows && x.kind == kind && x.tier == tier ==> !Covers(x, at, n)
  {
    if rows == [] then None
    else if rows[0].kind == kind && rows[0].tier == tier && Covers(rows[0], at, n) then Some(rows[0])
    else Pick(rows[1..], kind, tier, at, n)
  }

  function FirstAlias(aliases: seq<Alias>, at: Time): (r: Option<Alias>)
    ensures r.Some? ==> r.value in aliases && AliasCovers(r.value, at)
    ensures r.None? ==> forall x :: x in aliases ==> !AliasCovers(x, at)
  {
    if aliases == [] then None
    else if AliasCovers(aliases[0], at) then Some(aliases[0])
    else FirstAlias(aliases[1..], at)
  }

  function Resolve(t: Table, model: string, provider: string, at: Time): string {
    var a := FirstAlias(AliasesAt(t, Name(model, provider)), at);
    if a.Some? then a.value.canonical else model
  }

  ghost predicate Clear(rows: seq<Row>) {
    forall i, j :: 0 <= i < j < |rows| ==> !Ambiguous(rows[i], rows[j])
  }

  /** In a clear list, two members that cover the same point are the same row. */
  lemma CoveringRowIsUnique(rows: seq<Row>, a: Row, b: Row, at: Time, n: int)
    requires Clear(rows) && a in rows && b in rows && a.kind == b.kind && a.tier == b.tier
    requires n < MAX_INT64 && Covers(a, at, n) && Covers(b, at, n)
    ensures a == b
  {
    var i :| 0 <= i < |rows| && rows[i] == a;
    var j :| 0 <= j < |rows| && rows[j] == b;
    assert Ambiguous(a, b) && Ambiguous(b, a);
    assert !(i < j) && !(j < i);
  }

  /** The order of the rows does not matter to the row that is picked. */
  lemma PickIgnoresOrder(rows: seq<Row>, rows': seq<Row>, kind: Kind, tier: Tier, at: Time, n: int)
    requires multiset(rows) == multiset(rows') && Clear(rows) && n < MAX_INT64
    ensures Pick(rows, kind, tier, at, n) == Pick(rows', kind, tier, at, n)
  {
    SameMembers(rows, rows');
    var a, b := Pick(rows, kind, tier, at, n), Pick(rows', kind, tier, at, n);
    if a.Some? && b.Some? {
      CoveringRowIsUnique(rows, a.value, b.value, at, n);
    }
  }

  lemma SameMembers<T>(s: seq<T>, s': seq<T>)
    requires multiset(s) == multiset(s')
    ensures forall x :: x in s <==> x in s'
  {
    forall x
      ensures x in s <==> x in s'
    {
      assert x in s <==> x in multiset(s);
      assert x in s' <==> x in multiset(s');
    }
  }

  lemma FirstAliasIgnoresOrder(aliases: seq<Alias>, aliases': seq<Alias>, at: Time)
    requires multiset(aliases) == multiset(aliases')
    requires forall i, j :: 0 <= i < j < |aliases| ==> !AliasAmbiguous(aliases[i], aliases[j])
    ensures FirstAlias(aliases, at) == FirstAlias(aliases', at)
  {
    SameMembers(aliases, aliases');
    var a, b := FirstAlias(aliases, at), FirstAlias(aliases', at);
    if a.Some? && b.Some? {
      var i :| 0 <= i < |aliases| && aliases[i] == a.value;
      var j :| 0 <= j < |aliases| && aliases[j] == b.value;
      assert AliasAmbiguous(a.value, b.value) && AliasAmbiguous(b.value, a.value);
      assert !(i < j) && !(j < i);
    }
  }

  /** Two covered input totals with no threshold between them pick the same row. */
  lemma NoThresholdBetween(rows: seq<Row>, kind: Kind, tier: Tier, at: Time, m: int, n: int)
    requires Clear(rows) && (forall r :: r in rows ==> ValidRow(r)) && 0 <= m <= n < MAX_INT64
    requires forall r :: r in rows && r.tier == tier ==> !(m < r.from <= n)
    requires Pick(rows, kind, tier, at, m).Some? && Pick(rows, kind, tier, at, n).Some?
    ensures Pick(rows, kind, tier, at, m) == Pick(rows, kind, tier, at, n)
  {
    var a, b := Pick(rows, kind, tier, at, m).value, Pick(rows, kind, tier, at, n).value;
    assert b.from <= m;
    assert Covers(b, at, m);
    CoveringRowIsUnique(rows, a, b, at, m);
  }

  // ----- cost --------------------------------------------------------------

  datatype Price =
    | NegativeCount
    | Unpriced(unknown: set<Kind>)
    | Priced(cost: real, priced: set<Kind>, unknown: set<Kind>)

  predicate Partial(p: Price) {
    p.Priced? && p.unknown != {}
  }

  function Count(c: Counts, k: Kind): Int64 {
    if k in c then c[k] else 0
  }

  function TierPart(c: Counts, k: Kind): nat {
    if CountsTowardInputTier(k) && Count(c, k) > 0 then Count(c, k) else 0
  }

  /** The exact number of input tokens of every sort. */
  function InputTokens(c: Counts): nat {
    TierPart(c, Input) + TierPart(c, CachedRead) + TierPart(c, CacheWrite5m) + TierPart(c, CacheWrite1h)
      + TierPart(c, AudioInput)
  }

  predicate Charged(c: Counts, k: Kind) {
    Count(c, k) != 0 && Billable(k)
  }

  /** Rates are per million tokens. */
  function AtRate(count: int, rate: real): real {
    count as real * rate / 1000000.0
  }

  function ChargeBy(row: Option<Row>, c: Counts, k: Kind): real {
    if Charged(c, k) && row.Some? then AtRate(Count(c, k), row.value.rate) else 0.0
  }

  function Charge(rows: seq<Row>, tier: Tier, at: Time, c: Counts, n: int, k: Kind): real {
    ChargeBy(Pick(rows, k, tier, at, n), c, k)
  }

  function Charges(rows: seq<Row>, tier: Tier, at: Time, c: Counts, n: int): real {
    Charge(rows, tier, at, c, n, Input) + Charge(rows, tier, at, c, n, Output)
      + Charge(rows, tier, at, c, n, CachedRead) + Charge(rows, tier, at, c, n, CacheWrite5m)
      + Charge(rows, tier, at, c, n, CacheWrite1h) + Charge(rows, tier, at, c, n, AudioInput)
      + Charge(rows, tier, at, c, n, AudioOutput)
  }

  /** The price of a request: the tier is chosen once, from the input total, and
      applies to every kind. */
  function CostOf(t: Table, model: string, provider: string, tier: Tier, at: Time, c: Counts): Price {
    var name := Name(Resolve(t, model, provider, at), provider);
    if name !in t.rows then Unpriced({})
    else
      var rows := t.rows[name];
      var n := Wrap(InputTokens(c));
      if exists k :: k in c && c[k] < 0 && Billable(k) then NegativeCount
      else
        var priced := PricedKinds(rows, tier, at, c, n);
        var unknown := UnknownKinds(rows, tier, at, c, n);
        if priced == {} && unknown != {} then Unpriced(unknown)
        else Priced(Charges(rows, tier, at, c, n), priced, unknown)
  }

  function PricedKinds(rows: seq<Row>, tier: Tier, at: Time, c: Counts, n: int): set<Kind> {
    set k | k in c && Charged(c, k) && Pick(rows, k, tier, at, n).Some?
  }

  function UnknownKinds(rows: seq<Row>, tier: Tier, at: Time, c: Counts, n: int): set<Kind> {
    set k | k in c && Charged(c, k) && Pick(rows, k, tier, at, n).None?
  }

  /** The running total wraps, but the order of the kinds does not matter. */
  method InputTierTotal(c: Counts) returns (total: Int64)
    ensures total == Wrap(InputTokens(c))
  {
    total := 0;
    var kinds := c.Keys;
    ghost var sum: int := 0;
    while kinds != {}
      invariant kinds <= c.Keys && total == Wrap(sum)
      invariant sum == PartAll(c, kinds)
      decreases kinds
    {
      var k :| k in kinds;
      PartStep(c, kinds, k);
      if c[k] > 0 && CountsTowardInputTier(k) {
        WrapAdd(sum, c[k]);
        total := Wrap(total + c[k]);
        sum := sum + c[k];
      }
      kinds := kinds - {k};
    }
  }

  /** What the loop has added for `k`, with the kinds in `left` still to come. */
  ghost function Part(c: Counts, left: set<Kind>, k: Kind): int {
    if k in left then 0 else TierPart(c, k)
  }

  ghost function PartAll(c: Counts, left: set<Kind>): int {
    Part(c, left, Input) + Part(c, left, CachedRead) + Part(c, left, CacheWrite5m) + Part(c, left, CacheWrite1h)
      + Part(c, left, AudioInput)
  }

  lemma PartStep(c: Counts, left: set<Kind>, k: Kind)
    requires k in left
    ensures PartAll(c, left - {k}) == PartAll(c, left) + TierPart(c, k)
  {
  }

  ghost function Done(rows: seq<Row>, tier: Tier, at: Time, c: Counts, n: int, left: set<Kind>, k: Kind): real {
    if k in left then 0.0 else Charge(rows, tier, at, c, n, k)
  }

  ghost function DoneAll(rows: seq<Row>, tier: Tier, at: Time, c: Counts, n: int, left: set<Kind>): real {
    Done(rows, tier, at, c, n, left, Input) + Done(rows, tier, at, c, n, left, Output)
      + Done(rows, tier, at, c, n, left, CachedRead) + Done(rows, tier, at, c, n, left, CacheWrite5m)
      + Done(rows, tier, at, c, n, left, CacheWrite1h) + Done(rows, tier, at, c, n, left, AudioInput)
      + Done(rows, tier, at, c, n, left, AudioOutput)
  }

  method Cost(t: Table, model: string, provider: string, tier: Tier, at: Time, c: Counts) returns (p: Price)
    ensures p == CostOf(t, model, provider, tier, at, c)
  {
    var name := Name(Resolve(t, model, provider, at), provider);
    if name !in t.rows {
      return Unpriced({});
    }
    var rows := t.rows[name];
    var n := InputTierTotal(c);
    var ok, total, priced, unknown := ChargeEach(rows, tier, at, c, n);
    if !ok {
      return NegativeCount;
    }
    assert priced == PricedKinds(rows, tier, at, c, n);
    assert unknown == UnknownKinds(rows, tier, at, c, n);
    return if priced == {} && unknown != {} then Unpriced(unknown) else Priced(total, priced, unknown);
  }

  method ChargeEach(rows: seq<Row>, tier: Tier, at: Time, c: Counts, n: int)
      returns (ok: bool, total: real, priced: set<Kind>, unknown: set<Kind>)
    ensures !ok <==> exists k :: k in c && c[k] < 0 && Billable(k)
    ensures ok ==> total == Charges(rows, tier, at, c, n)
    ensures ok ==> forall k :: k in priced <==> k in c && Charged(c, k) && Pick(rows, k, tier, at, n).Some?
    ensures ok ==> forall k :: k in unknown <==> k in c && Charged(c, k) && Pick(rows, k, tier, at, n).None?
  {
    hide Pick, Done, DoneAll, Charges;
    total, priced, unknown := 0.0, {}, {};
    var kinds := c.Keys;
    DoneEnds(rows, tier, at, c, n);
    while kinds != {}
      invariant kinds <= c.Keys
      invariant forall k :: k in c && k !in kinds && Billable(k) ==> c[k] >= 0
      invariant forall k :: k in priced <==> k in c && k !in kinds && Charged(c, k) && Pick(rows, k, tier, at, n).Some?
      invariant forall k :: k in unknown <==> k in c && k !in kinds && Charged(c, k) && Pick(rows, k, tier, at, n).None?
      invariant total == DoneAll(rows, tier, at, c, n, kinds)
      decreases kinds
    {
      var k :| k in kinds;
      DoneStep(rows, tier, at, c, n, kinds, k);
      kinds := kinds - {k};
      if c[k] != 0 && Billable(k) {
        if c[k] < 0 {
          return false, total, priced, unknown;
        }
        var row := Pick(rows, k, tier, at, n);
        if row.None? {
          unknown := unknown + {k};
        } else {
          total := total + AtRate(c[k], row.value.rate);
          priced := priced + {k};
        }
      }
    }
    ok := true;
  }

  lemma DoneEnds(rows: seq<Row>, tier: Tier, at: Time, c: Counts, n: int)
    ensures DoneAll(rows, tier, at, c, n, c.Keys) == 0.0
    ensures DoneAll(rows, tier, at, c, n, {}) == Charges(rows, tier, at, c, n)
  {
  }

  lemma DoneStep(rows: seq<Row>, tier: Tier, at: Time, c: Counts, n: int, left: set<Kind>, k: Kind)
    requires k in left
    ensures DoneAll(rows, tier, at, c, n, left - {k})
         == DoneAll(rows, tier, at, c, n, left) + Charge(rows, tier, at, c, n, k)
  {
  }
}
