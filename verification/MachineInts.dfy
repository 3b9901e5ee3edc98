/** Fixed-width unsigned integers and the conversions between them.
    Every arithmetic step on these types is checked to stay in range, so a function
    that is written with them and verifies can neither wrap nor panic. */
module MachineInts {
  const TWO_64: int := 0x1_0000_0000_0000_0000

  newtype u8 = x: int | 0 <= x < 0x100
  newtype u16 = x: int | 0 <= x < 0x1_0000
  newtype u64 = x: int | 0 <= x < 0x1_0000_0000_0000_0000
  newtype u128 = x: int | 0 <= x < 0x1_0000_0000_0000_0000_0000_0000_0000_0000

  const U64_MAX: u64 := 0xFFFF_FFFF_FFFF_FFFF

  /** `x.try_into().unwrap_or(u64::MAX)` */
  function TryIntoU64OrMax(x: u128): u64 {
    if x <= U64_MAX as u128 then x as u64 else U64_MAX
  }

  /** `a.saturating_sub(b)` */
  function SaturatingSub(a: u64, b: u64): u64 {
    if a < b then 0 else a - b
  }

  /** `x as u64`: keeps the low 64 bits. */
  function TruncateToU64(x: u128): u64 {
    ((x as int) % TWO_64) as u64
  }
}

/** Products and quotients of natural numbers. */
module NatArithmetic {
  function CeilDiv(n: nat, d: nat): nat
    requires d > 0
  {
    (n + d - 1) / d
  }

  lemma MulMonotone(a: nat, b: nat, c: nat)
    requires a <= b
    ensures a * c <= b * c && c * a <= c * b
  {
  }

  lemma MulBounded(a: nat, b: nat, m: nat, n: nat)
    requires a <= m && b <= n
    ensures a * b <= m * n
  {
    MulMonotone(a, m, b);
    MulMonotone(b, n, m);
  }

  /** One more factor is at least one more multiple. */
  lemma MulStep(d: nat, a: int, b: int)
    ensures a < b ==> d * a + d <= d * b
    ensures a <= b ==> d * a <= d * b
  {
    if a <= b {
      var k: nat := b - a;
      assert d * (a + k) == d * a + d * k;
      if k >= 1 {
        MulMonotone(1, k, d);
      }
    }
  }

  lemma DivBounds(n: int, d: int)
    requires d > 0
    ensures d * (n / d) <= n < d * (n / d) + d
  {
    assert n == d * (n / d) + n % d;
  }

  lemma DivUnique(n: int, d: int, q: int)
    requires d > 0 && d * q <= n < d * q + d
    ensures n / d == q
  {
    DivBounds(n, d);
    MulStep(d, n / d, q);
    MulStep(d, q, n / d);
  }

  lemma DivMonotone(m: int, n: int, d: int)
    requires d > 0 && m <= n
    ensures m / d <= n / d
  {
    DivBounds(m, d);
    DivBounds(n, d);
    MulStep(d, n / d, m / d);
  }

  /** CeilDiv is the least q with q * d >= n. */
  lemma CeilDivLeast(n: nat, d: nat, q: nat)
    requires d > 0
    ensures CeilDiv(n, d) <= q <==> n <= q * d
  {
    var c := CeilDiv(n, d);
    DivBounds(n + d - 1, d);
    MulStep(d, c, q);
    MulStep(d, q, c);
  }

  /** Rounding down what is left is rounding up what is taken. */
  lemma FloorComplement(t: nat, a: nat, s: nat)
    requires s + a > 0
    ensures (s * t) / (s + a) <= t
    ensures t - (s * t) / (s + a) == CeilDiv(t * a, s + a)
  {
    var d := s + a;
    var f := (s * t) / d;
    DivBounds(s * t, d);
    assert d * t == s * t + t * a;
    MulStep(d, t, f);
    DivUnique(t * a + d - 1, d, t - f) by {
      assert d * (t - f) == d * t - d * f;
    }
  }
}
