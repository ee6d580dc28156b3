/** Pricing arithmetic of rdex/swap: the U512 computations the pallet performs,
    the exact formulas they stand for, and what those formulas guarantee. */
module SwapMath {
  import opened Arithmetic
  import opened Sums

  // ----- the pallet's computations, with every U512 operation saturating

  function Add512(a: u512, b: u512): u512 { Min(a + b, U512_MAX) }

  /** Saturating product. Products and quotients are written as repeated sums throughout, so that
      what is said about the pallet's calls stays linear; the `Is` lemmas give the usual form. */
  function Mul512(a: u512, b: u512): u512 { Min(Times(a, b), U512_MAX) }

  lemma Mul512IsProduct()
    ensures forall a: u512, b: u512 :: Mul512(a, b) == Min(a * b, U512_MAX)
  {
    forall a: u512, b: u512
      ensures Mul512(a, b) == Min(a * b, U512_MAX)
    {
      TimesIsProduct(a, b);
    }
  }

  function Div512(a: u512, b: u512): u512 { if b == 0 then 0 else Floor(a, b) }

  function SafeToU128(n: nat): u128 { Min(n, U128_MAX) }

  /** `cal_swap_result`: (output, fee). */
  function CalSwapResult(fis: u128, rtoken: u128, input: u128, inputIsFis: bool): (u128, u128)
  {
    if fis == 0 || rtoken == 0 || input == 0 then (0, 0)
    else if inputIsFis then Slipped(input, fis, rtoken) else Slipped(input, rtoken, fis)
  }

  /** Output and fee for an input of x against reserves of X on its own side and Y on the other. */
  function Slipped(x: u128, bigX: u128, bigY: u128): (u128, u128)
  {
    var t := Add512(x, bigX);
    var denominator := Mul512(t, t);
    var y := Div512(Mul512(Mul512(x, bigX), bigY), denominator);
    var fee := Div512(Mul512(Mul512(x, x), bigY), denominator);
    (SafeToU128(y), SafeToU128(fee))
  }

  /** `cal_pool_unit`: (new total units, units for the provider). */
  function CalPoolUnit(oldUnits: u128, fis: u128, rtoken: u128, addFis: u128, addRtoken: u128): (u128, u128)
  {
    if addFis == 0 && addRtoken == 0 then (0, 0)
    else if SatAdd(fis, addFis) == 0 || SatAdd(rtoken, addRtoken) == 0 then (0, 0)
    else if fis == 0 || rtoken == 0 then (addFis, addFis)
    else
      var p: u512, bigF: u512, bigR: u512, f: u512, r: u512 := oldUnits, fis, rtoken, addFis, addRtoken;
      var numerator := Add512(Mul512(bigF, r), Mul512(f, bigR));
      var raw := Div512(Mul512(p, numerator), Mul512(Mul512(bigR, bigF), 2));
      if raw == 0 then (0, 0) else
        var abs := if Mul512(bigF, r) > Mul512(f, bigR)
                   then SatSub(Mul512(bigF, r), Mul512(f, bigR))
                   else SatSub(Mul512(f, bigR), Mul512(bigF, r));
        var adj := if abs == 0 then 0
                   else Div512(Mul512(raw, abs), Mul512(Add512(f, bigF), Add512(r, bigR)));
        var add := SatSub(raw, adj);
        (SafeToU128(Add512(p, add)), SafeToU128(add))
  }

  /** `cal_remove_result`: (fis out, rToken out, amount of the input side to swap). */
  function CalRemoveResult(units: u128, rm: u128, swapUnits: u128, fis: u128, rtoken: u128, inputIsFis: bool)
    : (u128, u128, u128)
  {
    if units == 0 || rm == 0 then (0, 0, 0) else
      var useRm: u512 := Min(rm, units);
      (SafeToU128(Div512(Mul512(useRm, fis), units)),
       SafeToU128(Div512(Mul512(useRm, rtoken), units)),
       SafeToU128(Div512(Mul512(swapUnits, if inputIsFis then fis else rtoken), units)))
  }

  // ----- the exact formulas

  /** x*X*Y / (x+X)^2 */
  function SwapOut(x: nat, bigX: nat, bigY: nat): nat
    requires bigX > 0
  {
    Floor(Times(Times(x, bigX), bigY), Times(x + bigX, x + bigX))
  }

  lemma SwapOutIs(x: nat, bigX: nat, bigY: nat)
    requires bigX > 0
    ensures (x + bigX) * (x + bigX) > 0
    ensures SwapOut(x, bigX, bigY) == Floor(x * bigX * bigY, (x + bigX) * (x + bigX))
  {
    hide Floor;
    TimesIsProduct(x, bigX);
    TimesIsProduct(x * bigX, bigY);
    TimesIsProduct(x + bigX, x + bigX);
    MulBound(1, x + bigX, 1, x + bigX);
  }

  /** x*x*Y / (x+X)^2 */
  function SwapFee(x: nat, bigX: nat, bigY: nat): nat
    requires bigX > 0
  {
    Floor(Times(Times(x, x), bigY), Times(x + bigX, x + bigX))
  }

  lemma SwapFeeIs(x: nat, bigX: nat, bigY: nat)
    requires bigX > 0
    ensures (x + bigX) * (x + bigX) > 0
    ensures SwapFee(x, bigX, bigY) == Floor(x * x * bigY, (x + bigX) * (x + bigX))
  {
    hide Floor;
    TimesIsProduct(x, x);
    TimesIsProduct(x * x, bigY);
    TimesIsProduct(x + bigX, x + bigX);
    MulBound(1, x + bigX, 1, x + bigX);
  }

  function Gap(a: nat, b: nat): nat { if a > b then a - b else b - a }

  /** P*(F*r + f*R) / (2*R*F): units before the slip adjustment. */
  function RawUnits(p: nat, bigF: nat, bigR: nat, f: nat, r: nat): nat
    requires bigF > 0 && bigR > 0
  {
    Floor(Times(p, Times(bigF, r) + Times(f, bigR)), 2 * Times(bigR, bigF))
  }

  lemma RawUnitsIs(p: nat, bigF: nat, bigR: nat, f: nat, r: nat)
    requires bigF > 0 && bigR > 0
    ensures bigR * bigF * 2 > 0
    ensures RawUnits(p, bigF, bigR, f, r) == Floor(p * (bigF * r + f * bigR), bigR * bigF * 2)
  {
    hide Floor;
    TimesIsProduct(bigF, r);
    TimesIsProduct(f, bigR);
    TimesIsProduct(p, bigF * r + f * bigR);
    TimesIsProduct(bigR, bigF);
    MulBound(1, bigR, 1, bigF);
  }

  /** raw*|F*r - f*R| / ((f+F)*(r+R)) */
  function Slip(raw: nat, bigF: nat, bigR: nat, f: nat, r: nat): nat
    requires bigF > 0 && bigR > 0
  {
    Floor(Times(raw, Gap(Times(bigF, r), Times(f, bigR))), Times(f + bigF, r + bigR))
  }

  lemma SlipIs(raw: nat, bigF: nat, bigR: nat, f: nat, r: nat)
    requires bigF > 0 && bigR > 0
    ensures (f + bigF) * (r + bigR) > 0
    ensures Slip(raw, bigF, bigR, f, r) == Floor(raw * Gap(bigF * r, f * bigR), (f + bigF) * (r + bigR))
  {
    hide Floor;
    TimesIsProduct(bigF, r);
    TimesIsProduct(f, bigR);
    TimesIsProduct(raw, Gap(bigF * r, f * bigR));
    TimesIsProduct(f + bigF, r + bigR);
    MulBound(1, f + bigF, 1, r + bigR);
  }

  /** Units granted by an add of (f, r) to a pool holding (F, R) with p units. */
  function Units(p: nat, bigF: nat, bigR: nat, f: nat, r: nat): nat
    requires bigF > 0 && bigR > 0
  {
    var raw := RawUnits(p, bigF, bigR, f, r);
    SatSub(raw, Slip(raw, bigF, bigR, f, r))
  }

  /** a*reserve / q: what removing `a` of `q` units returns from a reserve. */
  function Redeem(a: nat, q: nat, reserve: nat): nat
    requires q > 0
  {
    Floor(Times(a, reserve), q)
  }

  lemma RedeemIs(a: nat, q: nat, reserve: nat)
    requires q > 0
    ensures Redeem(a, q, reserve) == Floor(a * reserve, q)
  {
    hide Floor;
    TimesIsProduct(a, reserve);
  }

  // ----- no U512 operation saturates

  lemma ThreeFactors(a: u128, b: u128, c: u128)
    ensures a * b <= U128_MAX * U128_MAX
    ensures a * b * c <= U128_MAX * U128_MAX * U128_MAX
    ensures a * b * c <= U512_MAX
  {
    MulBound(a, U128_MAX, b, U128_MAX);
    MulBound(a * b, U128_MAX * U128_MAX, c, U128_MAX);
  }

  lemma FeeAtMostReserve(x: nat, bigX: nat, bigY: nat)
    requires bigX > 0
    ensures SwapFee(x, bigX, bigY) <= bigY
  {
    hide SwapFee, Floor;
    SwapFeeIs(x, bigX, bigY);
    var t := (x + bigX) * (x + bigX);
    assert x * x <= t by { MulBound(x, x + bigX, x, x + bigX); }
    MulMono(x * x, t, bigY);
    FloorAtMost(x * x * bigY, t, bigY);
  }

  /** Twice the product never exceeds the sum of squares, so 4xX <= (x+X)^2. */
  lemma FourProducts(x: nat, bigX: nat)
    ensures 4 * (x * bigX) <= (x + bigX) * (x + bigX)
  {
    var d := x - bigX;
    assert d * d >= 0;
    assert (x + bigX) * (x + bigX) == d * d + 4 * (x * bigX);
  }

  /** The output is at most a quarter of the output reserve. */
  lemma QuarterBound(x: nat, bigX: nat, bigY: nat)
    requires bigX > 0
    ensures 4 * SwapOut(x, bigX, bigY) <= bigY
  {
    hide SwapOut, Floor;
    SwapOutIs(x, bigX, bigY);
    var t := (x + bigX) * (x + bigX);
    var y := SwapOut(x, bigX, bigY);
    MulBound(1, x + bigX, 1, x + bigX);
    FourProducts(x, bigX);
    FloorBounds(x * bigX * bigY, t);
    assert y * t <= x * bigX * bigY;
    MulMono(4 * (x * bigX), t, bigY);
    assert 4 * (x * bigX) * bigY == 4 * (x * bigX * bigY);
    assert (4 * y) * t == 4 * (y * t);
    assert bigY * t == t * bigY;
    MulCancel(4 * y, bigY, t);
  }

  /** The output of `cal_swap_result` is the exact formula on every input: nothing saturates, nothing is clamped. */
  lemma OutputExact(x: u128, bigX: u128, bigY: u128)
    requires bigX > 0
    ensures Slipped(x, bigX, bigY).0 == SwapOut(x, bigX, bigY)
  {
    hide Times, Mul512, SwapOut;
    Mul512IsProduct();
    SwapOutIs(x, bigX, bigY);
    ThreeFactors(x, bigX, bigY);
    var t := x + bigX;
    MulBound(t, 2 * U128_MAX, t, 2 * U128_MAX);
    MulMono(1, t, t);
    QuarterBound(x, bigX, bigY);
  }

  /** Likewise for the fee. */
  lemma FeeExact(x: u128, bigX: u128, bigY: u128)
    requires bigX > 0
    ensures Slipped(x, bigX, bigY).1 == SwapFee(x, bigX, bigY)
  {
    hide Times, Mul512, SwapFee;
    Mul512IsProduct();
    SwapFeeIs(x, bigX, bigY);
    ThreeFactors(x, x, bigY);
    var t := x + bigX;
    MulBound(t, 2 * U128_MAX, t, 2 * U128_MAX);
    MulMono(1, t, t);
    FeeAtMostReserve(x, bigX, bigY);
  }

  lemma FourFactors(a: u128, b: u128, c: u128, d: u128)
    ensures a * b * (c * d) <= U512_MAX
  {
    ThreeFactors(a, b, 0);
    ThreeFactors(c, d, 0);
    MulBound(a * b, U128_MAX * U128_MAX, c * d, U128_MAX * U128_MAX);
  }

  lemma RawAtMost(raw: nat, p: nat, bigF: nat, bigR: nat, g: nat, r: nat)
    requires bigF > 0 && bigR > 0 && g <= bigF * r
    requires raw * (bigR * bigF * 2) <= p * (bigF * r + g)
    ensures raw <= p * r
  {
    MulMono(bigF * r + g, 2 * (bigF * r), p);
    assert raw * (bigR * bigF * 2) == (raw * bigR) * (2 * bigF);
    assert p * (2 * (bigF * r)) == (p * r) * (2 * bigF);
    MulCancel(raw * bigR, p * r, 2 * bigF);
    MulMono(1, bigR, raw);
  }

  /** The one product that could exceed 512 bits: raw units times the imbalance. */
  lemma AdjustmentFits(raw: nat, p: u128, bigF: u128, bigR: u128, f: u128, r: u128)
    requires bigF > 0 && bigR > 0
    requires raw * (bigR * bigF * 2) <= p * (bigF * r + f * bigR)
    requires bigF * r >= f * bigR
    ensures raw * (bigF * r) <= U512_MAX
  {
    RawAtMost(raw, p, bigF, bigR, f * bigR, r);
    MulMono(raw, p * r, bigF * r);
    FourFactors(p, r, bigF, r);
  }

  lemma RawProductFits(p: u128, bigF: u128, bigR: u128, f: u128, r: u128)
    ensures p * (bigF * r + f * bigR) <= U512_MAX
    ensures bigR * bigF * 2 <= U512_MAX
  {
    ThreeFactors(bigF, r, 0);
    ThreeFactors(f, bigR, 0);
    ThreeFactors(bigR, bigF, 0);
    MulBound(p, U128_MAX, bigF * r + f * bigR, 2 * U128_MAX * U128_MAX);
  }

  lemma RawFloor(p: nat, bigF: nat, bigR: nat, f: nat, r: nat)
    requires bigF > 0 && bigR > 0
    ensures RawUnits(p, bigF, bigR, f, r) * (bigR * bigF * 2) <= p * (bigF * r + f * bigR)
  {
    hide RawUnits, Floor;
    RawUnitsIs(p, bigF, bigR, f, r);
    FloorBounds(p * (bigF * r + f * bigR), bigR * bigF * 2);
  }

  lemma GapFits(raw: nat, p: u128, bigF: u128, bigR: u128, f: u128, r: u128)
    requires bigF > 0 && bigR > 0
    requires raw * (bigR * bigF * 2) <= p * (bigF * r + f * bigR)
    ensures raw * Gap(bigF * r, f * bigR) <= U512_MAX
  {
    if bigF * r >= f * bigR {
      AdjustmentFits(raw, p, bigF, bigR, f, r);
      MulMono(Gap(bigF * r, f * bigR), bigF * r, raw);
    } else {
      AdjustmentFits(raw, p, bigR, bigF, r, f);
      MulMono(Gap(bigF * r, f * bigR), bigR * f, raw);
    }
  }

  lemma RawFits(p: u128, bigF: u128, bigR: u128, f: u128, r: u128)
    requires bigF > 0 && bigR > 0
    ensures p * (bigF * r + f * bigR) <= U512_MAX
    ensures bigR * bigF * 2 <= U512_MAX
    ensures RawUnits(p, bigF, bigR, f, r) * Gap(bigF * r, f * bigR) <= U512_MAX
  {
    RawProductFits(p, bigF, bigR, f, r);
    RawFloor(p, bigF, bigR, f, r);
    GapFits(RawUnits(p, bigF, bigR, f, r), p, bigF, bigR, f, r);
  }

  /** The slip adjustment never exceeds the raw units. */
  lemma AdjustmentBounded(p: nat, bigF: nat, bigR: nat, f: nat, r: nat)
    requires bigF > 0 && bigR > 0
    ensures var raw := RawUnits(p, bigF, bigR, f, r);
            Slip(raw, bigF, bigR, f, r) <= raw
  {
    hide RawUnits, Slip, Floor;
    SlipIs(RawUnits(p, bigF, bigR, f, r), bigF, bigR, f, r);
    var raw := RawUnits(p, bigF, bigR, f, r);
    MulBound(bigF, f + bigF, r, r + bigR);
    MulBound(f, f + bigF, bigR, r + bigR);
    MulMono(Gap(bigF * r, f * bigR), (f + bigF) * (r + bigR), raw);
    MulBound(1, f + bigF, 1, r + bigR);
    FloorAtMost(raw * Gap(bigF * r, f * bigR), (f + bigF) * (r + bigR), raw);
  }

  lemma RawExact(p: u128, bigF: u128, bigR: u128, f: u128, r: u128)
    requires bigF > 0 && bigR > 0
    ensures Mul512(bigF, r) == bigF * r && Mul512(f, bigR) == f * bigR
    ensures Mul512(Add512(f, bigF), Add512(r, bigR)) == (f + bigF) * (r + bigR) > 0
    ensures Div512(Mul512(p, Add512(Mul512(bigF, r), Mul512(f, bigR))), Mul512(Mul512(bigR, bigF), 2))
         == RawUnits(p, bigF, bigR, f, r)
  {
    hide Times, Mul512, RawUnits;
    Mul512IsProduct();
    RawUnitsIs(p, bigF, bigR, f, r);
    RawFits(p, bigF, bigR, f, r);
    ThreeFactors(bigF, r, 0);
    ThreeFactors(f, bigR, 0);
    ThreeFactors(bigR, bigF, 0);
    MulBound(1, bigR, 1, bigF);
    MulBound(f + bigF, 2 * U128_MAX, r + bigR, 2 * U128_MAX);
    MulBound(1, f + bigF, 1, r + bigR);
  }

  /** `cal_pool_unit` on a seeded pool is the exact formula, clamped to u128 at the very end. */
  lemma PoolUnitExact(p: u128, bigF: u128, bigR: u128, f: u128, r: u128)
    requires bigF > 0 && bigR > 0 && (f > 0 || r > 0)
    ensures CalPoolUnit(p, bigF, bigR, f, r) ==
            if RawUnits(p, bigF, bigR, f, r) == 0 then (0, 0)
            else (SafeToU128(p + Units(p, bigF, bigR, f, r)), SafeToU128(Units(p, bigF, bigR, f, r)))
  {
    hide Times, Mul512, RawUnits, Slip;
    Mul512IsProduct();
    RawExact(p, bigF, bigR, f, r);
    SlipIs(RawUnits(p, bigF, bigR, f, r), bigF, bigR, f, r);
    RawFits(p, bigF, bigR, f, r);
    var raw: u512 := RawUnits(p, bigF, bigR, f, r);
    var abs: u512 := Gap(bigF * r, f * bigR);
    var den: u512 := (f + bigF) * (r + bigR);
    AdjustmentBounded(p, bigF, bigR, f, r);
    assert Mul512(raw, abs) == raw * abs;
    if abs == 0 {
      assert raw * abs == 0;
    }
    var adj := if abs == 0 then 0 else Div512(Mul512(raw, abs), den);
    assert adj == Floor(raw * abs, den);
    assert CalPoolUnit(p, bigF, bigR, f, r) ==
           if raw == 0 then (0, 0) else (SafeToU128(Add512(p, SatSub(raw, adj))), SafeToU128(SatSub(raw, adj)));
  }

  // ----- swaps

  /** y*(X+x) <= x*Y: the trader never beats the constant-product price. */
  lemma OutputPriced(x: nat, bigX: nat, bigY: nat)
    requires bigX > 0
    ensures SwapOut(x, bigX, bigY) * (x + bigX) <= x * bigY
  {
    hide SwapOut, Floor;
    SwapOutIs(x, bigX, bigY);
    var t, y := x + bigX, SwapOut(x, bigX, bigY);
    MulBound(1, t, 1, t);
    FloorBounds(x * bigX * bigY, t * t);
    assert y * (t * t) <= x * bigX * bigY;
    MulMono(bigX, t, x * bigY);
    assert x * bigX * bigY == x * bigY * bigX;
    assert y * (t * t) == (y * t) * t;
    MulCancel(y * t, x * bigY, t);
  }

  /** The product of the reserves never falls. */
  lemma ProductGrows(x: nat, bigX: nat, bigY: nat)
    requires bigX > 0
    ensures SwapOut(x, bigX, bigY) <= bigY
    ensures (bigX + x) * (bigY - SwapOut(x, bigX, bigY)) >= bigX * bigY
  {
    var y := SwapOut(x, bigX, bigY);
    QuarterBound(x, bigX, bigY);
    OutputPriced(x, bigX, bigY);
    assert (bigX + x) * (bigY - y) == bigX * bigY + x * bigY - y * (x + bigX);
  }

  lemma ReturnPriced(y: nat, t: nat, x: nat, bigY: nat, left: nat, square: nat)
    requires square == bigY * bigY > 0 && left <= bigY && y * t <= x * bigY
    ensures Floor(y * left * t, square) <= x
  {
    MulBound(y * t, x * bigY, left, bigY);
    assert y * left * t == y * t * left;
    assert x * bigY * bigY == x * square;
    FloorAtMost(y * left * t, square, x);
  }

  /** Swapping the output straight back never returns more than was put in. */
  lemma RoundTripLoses(x: nat, bigX: nat, bigY: nat)
    requires bigX > 0 && bigY > 0
    ensures var y := SwapOut(x, bigX, bigY);
            y < bigY && SwapOut(y, bigY - y, bigX + x) <= x
  {
    hide SwapOut, Floor;
    var y := SwapOut(x, bigX, bigY);
    QuarterBound(x, bigX, bigY);
    OutputPriced(x, bigX, bigY);
    MulBound(1, bigY, 1, bigY);
    ReturnPriced(y, bigX + x, x, bigY, bigY - y, bigY * bigY);
    SwapOutIs(y, bigY - y, bigX + x);
  }

  lemma OutputCross(x: nat, z: nat, bigX: nat)
    requires x <= z
    ensures x * z <= bigX * bigX ==> x * ((z + bigX) * (z + bigX)) <= z * ((x + bigX) * (x + bigX))
    ensures x * z >= bigX * bigX ==> x * ((z + bigX) * (z + bigX)) >= z * ((x + bigX) * (x + bigX))
  {
    var d: nat := z - x;
    assert z * ((x + bigX) * (x + bigX)) - x * ((z + bigX) * (z + bigX)) == d * (bigX * bigX) - d * (x * z);
    if x * z <= bigX * bigX {
      MulMono(x * z, bigX * bigX, d);
    }
    if x * z >= bigX * bigX {
      MulMono(bigX * bigX, x * z, d);
    }
  }

  lemma ScaledOrder(x: nat, tx: nat, z: nat, tz: nat, bigX: nat, bigY: nat)
    requires tx > 0 && tz > 0 && x * tz <= z * tx
    ensures Floor(x * bigX * bigY, tx) <= Floor(z * bigX * bigY, tz)
  {
    var c := bigX * bigY;
    MulMono(x * tz, z * tx, c);
    assert x * tz * c == x * c * tz;
    assert z * tx * c == z * c * tx;
    assert x * bigX * bigY == x * c && z * bigX * bigY == z * c;
    FloorCross(x * c, tx, z * c, tz);
  }

  lemma OutputOrder(x: nat, z: nat, bigX: nat, bigY: nat)
    requires bigX > 0
    requires x * ((z + bigX) * (z + bigX)) <= z * ((x + bigX) * (x + bigX))
    ensures SwapOut(x, bigX, bigY) <= SwapOut(z, bigX, bigY)
  {
    hide SwapOut, Floor;
    SwapOutIs(x, bigX, bigY);
    SwapOutIs(z, bigX, bigY);
    MulBound(1, x + bigX, 1, x + bigX);
    MulBound(1, z + bigX, 1, z + bigX);
    ScaledOrder(x, (x + bigX) * (x + bigX), z, (z + bigX) * (z + bigX), bigX, bigY);
  }

  /** The output rises with the input while x*z <= X^2 and falls once x*z >= X^2. */
  lemma OutputShape(x: nat, z: nat, bigX: nat, bigY: nat)
    requires bigX > 0 && x <= z
    ensures x * z <= bigX * bigX ==> SwapOut(x, bigX, bigY) <= SwapOut(z, bigX, bigY)
    ensures x * z >= bigX * bigX ==> SwapOut(x, bigX, bigY) >= SwapOut(z, bigX, bigY)
  {
    OutputCross(x, z, bigX);
    if x * z <= bigX * bigX {
      OutputOrder(x, z, bigX, bigY);
    }
    if x * z >= bigX * bigX {
      OutputOrder(z, x, bigX, bigY);
    }
  }

  // ----- liquidity

  /** Removing u of p units takes at most a u/p share of a reserve. */
  lemma ShareKept(u: nat, p: nat, reserve: nat)
    requires p > 0 && u <= p
    ensures Redeem(u, p, reserve) <= reserve
    ensures (reserve - Redeem(u, p, reserve)) * p >= reserve * (p - u)
    ensures u < p && reserve > 0 ==> Redeem(u, p, reserve) < reserve
    ensures u == p ==> Redeem(u, p, reserve) == reserve
  {
    hide Redeem, Floor;
    RedeemIs(u, p, reserve);
    var out := Redeem(u, p, reserve);
    FloorBounds(u * reserve, p);
    MulMono(u, p, reserve);
    FloorAtMost(u * reserve, p, reserve);
    assert (reserve - out) * p == reserve * p - out * p;
    assert reserve * (p - u) == reserve * p - u * reserve;
    if u == p {
      FloorAtLeast(u * reserve, p, reserve);
    }
    if u < p && reserve > 0 && out >= reserve {
      MulMono(reserve, out, p);
      MulMono(u + 1, p, reserve);
    }
  }

  lemma UnitsAtMostRaw(p: nat, bigF: nat, bigR: nat, f: nat, r: nat)
    requires bigF > 0 && bigR > 0
    ensures Units(p, bigF, bigR, f, r) <= RawUnits(p, bigF, bigR, f, r)
    ensures bigF * r == f * bigR ==> Units(p, bigF, bigR, f, r) == RawUnits(p, bigF, bigR, f, r)
  {
    hide RawUnits, Slip;
    SlipIs(RawUnits(p, bigF, bigR, f, r), bigF, bigR, f, r);
  }

  /** The value of an add at the pre-add price pays for at least its units. */
  lemma UnitsPaidFor(p: nat, bigF: nat, bigR: nat, f: nat, r: nat)
    requires bigF > 0 && bigR > 0
    ensures Units(p, bigF, bigR, f, r) * (bigR * bigF * 2) <= p * (bigF * r + f * bigR)
  {
    RawFloor(p, bigF, bigR, f, r);
    UnitsAtMostRaw(p, bigF, bigR, f, r);
    MulMono(Units(p, bigF, bigR, f, r), RawUnits(p, bigF, bigR, f, r), bigR * bigF * 2);
  }

  lemma ValueKept(a: nat, p: nat, bigF: nat, bigR: nat, f: nat, r: nat)
    requires a * (bigR * bigF * 2) <= p * (bigF * r + f * bigR)
    ensures ((bigF + f) * bigR + (bigR + r) * bigF) * p >= 2 * bigF * bigR * (p + a)
  {
    var c, v := bigR * bigF * 2, bigF * r + f * bigR;
    assert (bigF + f) * bigR + (bigR + r) * bigF == c + v;
    assert (c + v) * p == c * p + p * v;
    assert 2 * bigF * bigR == c;
    assert c * (p + a) == c * p + a * c;
  }

  /** Every add keeps the value per unit at the pre-add price. */
  lemma ValuePerUnitKept(p: nat, bigF: nat, bigR: nat, f: nat, r: nat)
    requires bigF > 0 && bigR > 0
    ensures ((bigF + f) * bigR + (bigR + r) * bigF) * p
         >= 2 * bigF * bigR * (p + Units(p, bigF, bigR, f, r))
  {
    UnitsPaidFor(p, bigF, bigR, f, r);
    ValueKept(Units(p, bigF, bigR, f, r), p, bigF, bigR, f, r);
  }

  lemma ShareValue(out: nat, a: nat, q: nat, reserve: nat, price: nat)
    requires out * q <= a * reserve
    ensures out * price * q <= a * (reserve * price)
  {
    MulMono(out * q, a * reserve, price);
    assert out * price * q == out * q * price;
    assert a * reserve * price == a * (reserve * price);
  }

  /** Redeeming `a` of q units, of `all` that an add paid for: worth at most all + p parts of q of what was added. */
  lemma RedeemValue(outF: nat, outR: nat, a: nat, all: nat, p: nat, q: nat, bigF: nat, bigR: nat, f: nat, r: nat)
    requires a <= all && outF * q <= a * (bigF + f) && outR * q <= a * (bigR + r)
    requires all * (bigR * bigF * 2) <= p * (bigF * r + f * bigR)
    ensures (outF * bigR + outR * bigF) * q <= (f * bigR + r * bigF) * (p + all)
  {
    var v := f * bigR + r * bigF;
    ShareValue(outF, a, q, bigF + f, bigR);
    ShareValue(outR, a, q, bigR + r, bigF);
    assert (bigF + f) * bigR + (bigR + r) * bigF == bigR * bigF * 2 + v;
    assert a * ((bigF + f) * bigR) + a * ((bigR + r) * bigF) == a * (bigR * bigF * 2 + v);
    MulMono(a, all, bigR * bigF * 2 + v);
    assert all * (bigR * bigF * 2 + v) == all * (bigR * bigF * 2) + all * v;
    assert v * (p + all) == p * v + all * v;
    assert (outF * bigR + outR * bigF) * q == outF * bigR * q + outR * bigF * q;
  }

  lemma NotBothMore(outF: nat, outR: nat, bigF: nat, bigR: nat, f: nat, r: nat)
    requires bigF > 0 && bigR > 0
    requires outF * bigR + outR * bigF <= f * bigR + r * bigF
    ensures !(outF > f && outR > r)
  {
    assert (f + 1) * bigR == f * bigR + bigR;
    if outF > f && outR > r {
      MulMono(f + 1, outF, bigR);
      MulMono(r, outR, bigF);
    }
  }

  lemma RedeemBound(a: nat, q: nat, reserve: nat)
    requires q > 0
    ensures Redeem(a, q, reserve) * q <= a * reserve
  {
    hide Redeem, Floor;
    RedeemIs(a, q, reserve);
    FloorBounds(a * reserve, q);
  }

  /** Adding (f, r), for `all` units in exact terms, and removing `a` of them from a pool of q units. */
  lemma RemoveAfterAdd(p: nat, bigF: nat, bigR: nat, f: nat, r: nat, a: nat, q: nat)
    requires bigF > 0 && bigR > 0 && q > 0 && a <= Units(p, bigF, bigR, f, r)
    ensures var outF, outR := Redeem(a, q, bigF + f), Redeem(a, q, bigR + r);
            (outF * bigR + outR * bigF) * q <= (f * bigR + r * bigF) * (p + Units(p, bigF, bigR, f, r))
  {
    hide Units, Redeem;
    UnitsPaidFor(p, bigF, bigR, f, r);
    RedeemBound(a, q, bigF + f);
    RedeemBound(a, q, bigR + r);
    RedeemValue(Redeem(a, q, bigF + f), Redeem(a, q, bigR + r), a, Units(p, bigF, bigR, f, r), p, q, bigF, bigR, f, r);
  }

  /** Adding (f, r) and removing the units granted returns no more value at the
      pre-add price, so never more of both tokens. */
  lemma AddThenRemove(p: nat, bigF: nat, bigR: nat, f: nat, r: nat)
    requires bigF > 0 && bigR > 0 && p > 0
    ensures var a := Units(p, bigF, bigR, f, r);
            var outF, outR := Redeem(a, p + a, bigF + f), Redeem(a, p + a, bigR + r);
            && outF * bigR + outR * bigF <= f * bigR + r * bigF
            && !(outF > f && outR > r)
  {
    hide Units, Redeem;
    var a := Units(p, bigF, bigR, f, r);
    var outF, outR := Redeem(a, p + a, bigF + f), Redeem(a, p + a, bigR + r);
    RemoveAfterAdd(p, bigF, bigR, f, r, a, p + a);
    MulCancel(outF * bigR + outR * bigF, f * bigR + r * bigF, p + a);
    NotBothMore(outF, outR, bigF, bigR, f, r);
  }

  lemma ProportionalShare(a: nat, p: nat, bigF: nat, bigR: nat, f: nat, r: nat)
    requires bigF > 0 && bigR > 0 && bigF * r == f * bigR
    requires a * (bigR * bigF * 2) <= p * (bigF * r + f * bigR)
    ensures a * bigF <= p * f && a * bigR <= p * r
  {
    assert a * (bigR * bigF * 2) == a * bigF * (2 * bigR) == a * bigR * (2 * bigF);
    assert p * (bigF * r + f * bigR) == p * f * (2 * bigR) == p * r * (2 * bigF);
    MulCancel(a * bigF, p * f, 2 * bigR);
    MulCancel(a * bigR, p * r, 2 * bigF);
  }

  /** A proportional add of (f, r) buys at most a p*f/F share, on either token. */
  lemma ProportionalUnits(p: nat, bigF: nat, bigR: nat, f: nat, r: nat)
    requires bigF > 0 && bigR > 0 && bigF * r == f * bigR
    ensures Units(p, bigF, bigR, f, r) * bigF <= p * f
    ensures Units(p, bigF, bigR, f, r) * bigR <= p * r
  {
    UnitsPaidFor(p, bigF, bigR, f, r);
    ProportionalShare(Units(p, bigF, bigR, f, r), p, bigF, bigR, f, r);
  }

  lemma RedeemAtMost(a: nat, p: nat, q: nat, reserve: nat, x: nat)
    requires q == p + a > 0 && a * reserve <= p * x
    ensures Redeem(a, q, reserve + x) <= x
  {
    hide Redeem, Floor;
    RedeemIs(a, q, reserve + x);
    assert a * (reserve + x) == a * reserve + a * x;
    assert x * q == p * x + a * x;
    FloorAtMost(a * (reserve + x), q, x);
  }

  /** After a proportional add, removal returns no more of either token. */
  lemma ProportionalRoundTrip(p: nat, bigF: nat, bigR: nat, f: nat, r: nat)
    requires bigF > 0 && bigR > 0 && p > 0 && bigF * r == f * bigR
    ensures var a := Units(p, bigF, bigR, f, r);
            Redeem(a, p + a, bigF + f) <= f && Redeem(a, p + a, bigR + r) <= r
  {
    var a := Units(p, bigF, bigR, f, r);
    ProportionalUnits(p, bigF, bigR, f, r);
    RedeemAtMost(a, p, p + a, bigF, f);
    RedeemAtMost(a, p, p + a, bigR, r);
  }

  // ----- depth: reserves product per squared unit

  /** F*R*P^2 */
  function Weight(f: nat, r: nat, p: nat): nat { Times(Times(f, r), Times(p, p)) }

  lemma WeightIs(f: nat, r: nat, p: nat)
    ensures Weight(f, r, p) == f * r * (p * p)
  {
    TimesIsProduct(f, r);
    TimesIsProduct(p, p);
    TimesIsProduct(f * r, p * p);
  }

  /** F'*R'/P'^2 >= F*R/P^2, without division. */
  predicate DeeperBy(f: nat, r: nat, p: nat, f': nat, r': nat, p': nat) { Weight(f', r', p) >= Weight(f, r, p') }

  lemma DeeperIs(f: nat, r: nat, p: nat, f': nat, r': nat, p': nat)
    ensures DeeperBy(f, r, p, f', r', p') <==> f' * r' * (p * p) >= f * r * (p' * p')
  {
    hide Weight;
    WeightIs(f', r', p);
    WeightIs(f, r, p');
  }

  lemma DeeperFactors(f: nat, r: nat, p: nat, f': nat, r': nat, p': nat)
    requires f' * p >= f * p' && r' * p >= r * p'
    ensures DeeperBy(f, r, p, f', r', p')
  {
    hide DeeperBy;
    DeeperIs(f, r, p, f', r', p');
    MulBound(f * p', f' * p, r * p', r' * p);
    assert f * p' * (r * p') == f * r * (p' * p');
    assert f' * p * (r' * p) == f' * r' * (p * p);
  }

  lemma DeeperTransitive(x: nat, p: nat, y: nat, q: nat, z: nat, s: nat)
    requires q > 0 && y * p >= x * q && z * q >= y * s
    ensures z * p >= x * s
  {
    MulMono(x * q, y * p, s);
    MulMono(y * s, z * q, p);
    assert x * q * s == x * s * q;
    assert y * p * s == y * s * p;
    assert z * q * p == z * p * q;
    MulCancel(x * s, z * p, q);
  }
}
