/** Fixed-width arithmetic of the runtime: saturating, wrapping and rational
    operations on unsigned integers, and the few nonlinear facts the proofs need. */
module Arithmetic {
  const U32_MAX: nat := 0xFFFF_FFFF
  const U64_MAX: nat := 0xFFFF_FFFF_FFFF_FFFF
  const U128_MAX: nat := 0xFFFF_FFFF_FFFF_FFFF_FFFF_FFFF_FFFF_FFFF
  const U512_MAX: nat :=
    0xFFFF_FFFF_FFFF_FFFF_FFFF_FFFF_FFFF_FFFF_FFFF_FFFF_FFFF_FFFF_FFFF_FFFF_FFFF_FFFF_FFFF_FFFF_FFFF_FFFF_FFFF_FFFF_FFFF_FFFF_FFFF_FFFF_FFFF_FFFF_FFFF_FFFF_FFFF_FFFF

  type u32 = x: nat | x <= U32_MAX
  type u64 = x: nat | x <= U64_MAX
  type u128 = x: nat | x <= U128_MAX
  type u512 = x: nat | x <= U512_MAX

  datatype Option<+T> = None | Some(value: T)

  function Min(a: nat, b: nat): nat { if a <= b then a else b }

  function SatSub(a: nat, b: nat): nat { if a >= b then a - b else 0 }

  function SatAdd(a: u128, b: u128): u128 { Min(a + b, U128_MAX) }

  function SatMul(a: u128, b: u128): u128 { Min(a * b, U128_MAX) }

  function SatAdd32(a: u32, b: u32): u32 { Min(a + b, U32_MAX) }

  /** Plain `+` on u32 in a release build. */
  function Wrap32(a: nat): u32 { a % (U32_MAX + 1) }

  lemma NoWrap32(a: nat)
    requires a <= U32_MAX
    ensures Wrap32(a) == a
  {
  }

  // ----- products

  lemma MulMono(a: nat, b: nat, c: nat)
    requires a <= b
    ensures a * c <= b * c && c * a <= c * b
  {
  }

  lemma MulBound(a: nat, b: nat, c: nat, d: nat)
    requires a <= b && c <= d
    ensures a * c <= b * d
  {
    MulMono(a, b, c);
    MulMono(c, d, b);
  }

  lemma MulCancel(a: nat, b: nat, c: nat)
    requires c > 0 && a * c <= b * c
    ensures a <= b
  {
    assert (b + 1) * c == b * c + c;
    if a > b {
      MulMono(b + 1, a, c);
    }
  }

  // ----- floor division

  lemma FloorUnique(n: nat, d: nat, q: nat, r: nat)
    requires q * d <= n < q * d + d
    requires r * d <= n < r * d + d
    ensures q == r
  {
    assert (q + 1) * d == q * d + d;
    assert (r + 1) * d == r * d + d;
    if q < r {
      MulMono(q + 1, r, d);
    } else if r < q {
      MulMono(r + 1, q, d);
    }
  }

  /** Unsigned integer division: how often d goes into n. */
  function Floor(n: nat, d: nat): (q: nat)
    requires d > 0
    ensures q <= n
  {
    if n < d then 0 else 1 + Floor(n - d, d)
  }

  lemma {:induction false} FloorBounds(n: nat, d: nat)
    requires d > 0
    ensures Floor(n, d) * d <= n < Floor(n, d) * d + d
  {
    if n >= d {
      FloorBounds(n - d, d);
      assert (1 + Floor(n - d, d)) * d == d + Floor(n - d, d) * d;
    }
  }

  lemma FloorIsDivision(n: nat, d: nat)
    requires d > 0
    ensures Floor(n, d) == n / d
  {
    var q := n / d;
    assert q * d <= n < q * d + d;
    FloorBounds(n, d);
    FloorUnique(n, d, Floor(n, d), q);
  }

  /** `multiply_by_rational(a, b, c)`: the floor of a*b/c, or nothing when it does not fit. */
  function MulRational(a: u128, b: u128, c: u128): Option<u128>
    requires c > 0
  {
    var q := Floor(a * b, c);
    if q <= U128_MAX then Some(q) else None
  }

  lemma FloorAtMost(n: nat, d: nat, q: nat)
    requires d > 0 && n <= q * d
    ensures Floor(n, d) <= q
  {
    FloorBounds(n, d);
    MulCancel(Floor(n, d), q, d);
  }

  lemma FloorAtLeast(n: nat, d: nat, q: nat)
    requires d > 0 && q * d <= n
    ensures q <= Floor(n, d)
  {
    var f := Floor(n, d);
    FloorBounds(n, d);
    assert (f + 1) * d == f * d + d;
    if f < q {
      MulMono(f + 1, q, d);
    }
  }

  lemma FloorMono(n: nat, m: nat, d: nat)
    requires d > 0 && n <= m
    ensures Floor(n, d) <= Floor(m, d)
  {
    FloorBounds(n, d);
    FloorAtLeast(m, d, Floor(n, d));
  }

  lemma CrossCancel(q: nat, a: nat, b: nat, c: nat, d: nat)
    requires b > 0 && q * b <= a && a * d <= c * b
    ensures q * d <= c
  {
    MulMono(q * b, a, d);
    assert q * b * d == (q * d) * b;
    MulCancel(q * d, c, b);
  }

  /** a/b <= c/d as fractions implies the same for the floors. */
  lemma FloorCross(a: nat, b: nat, c: nat, d: nat)
    requires b > 0 && d > 0 && a * d <= c * b
    ensures Floor(a, b) <= Floor(c, d)
  {
    FloorBounds(a, b);
    CrossCancel(Floor(a, b), a, b, c, d);
    FloorAtLeast(c, d, Floor(a, b));
  }
}
