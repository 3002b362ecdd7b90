/** Small shared vocabulary: optional values, amounts of money and the rounding
    that a NUMERIC(20,10) column applies to what is stored in it. */
module Basics {

  datatype Option<+T> = None | Some(value: T)

  /** A non-negative amount of money, exact, in units of 10^-10 dollars. */
  type Usd = x: real | 0.0 <= x

  /** What a NUMERIC(20,10) column keeps of an amount: the nearest whole unit,
      halves away from zero. */
  function Quantise(x: real): (n: int)
    ensures 0.0 <= x ==> 0 <= n && n as real - 0.5 <= x < n as real + 0.5
  {
    if 0.0 <= x then (x + 0.5).Floor else -((0.5 - x).Floor)
  }

  /** Rounding a sum whose first part is already stored rounds only the second
      part, so a balance and the log it caches stay in step. */
  lemma QuantiseShift(stored: nat, x: Usd)
    ensures Quantise(stored as real + x) == stored + Quantise(x)
  {
    var n := Quantise(stored as real + x);
    assert (n - stored) as real - 0.5 <= x < (n - stored) as real + 0.5;
    assert (Quantise(x) as real - (n - stored) as real) < 1.0;
    assert ((n - stored) as real - Quantise(x) as real) < 1.0;
  }

  /** A limit that has room for an amount has room for what is stored of it. */
  lemma QuantiseFits(room: int, x: Usd)
    requires x <= room as real
    ensures Quantise(x) <= room
  {
    assert Quantise(x) as real <= x + 0.5;
    assert Quantise(x) as real < (room + 1) as real;
  }

  function Max(a: int, b: int): (m: int)
    ensures m >= a && m >= b && (m == a || m == b)
  {
    if a < b then b else a
  }

  const MAX_INT64: int := 0x7fff_ffff_ffff_ffff

  type Int64 = x: int | -MAX_INT64 - 1 <= x <= MAX_INT64

  /** Two's complement: what 64-bit arithmetic makes of an exact result. */
  function Wrap(x: int): (n: Int64)
    ensures -MAX_INT64 - 1 <= x <= MAX_INT64 ==> n == x
    ensures (n - x) % 0x1_0000_0000_0000_0000 == 0
  {
    (x + MAX_INT64 + 1) % 0x1_0000_0000_0000_0000 - MAX_INT64 - 1
  }

  /** One step outside the range on either side comes back by 2^64. */
  lemma WrapOnce(x: int)
    ensures -0x1_8000_0000_0000_0000 <= x < -MAX_INT64 - 1 ==> Wrap(x) == x + 0x1_0000_0000_0000_0000
    ensures MAX_INT64 < x < 0x1_8000_0000_0000_0000 ==> Wrap(x) == x - 0x1_0000_0000_0000_0000
  {
  }

  lemma WrapAdd(x: int, y: int)
    ensures Wrap(Wrap(x) + y) == Wrap(x + y)
  {
  }
}
