/** What the pallet's pricing guarantees to traders and providers, in every state under custody. */
module DexPricing {
  import opened Arithmetic
  import opened Primitives
  import opened Sums
  import opened SwapMath
  import opened Tokens
  import opened Dex
  import opened DexCustody
  import opened DexDepth

  // ----- swaps

  /** `cal_swap_result` pays at most a quarter of the output reserve, whatever it is called with. */
  lemma QuarterPaid(fis: u128, rtoken: u128, input: u128, inputIsFis: bool)
    ensures 4 * CalSwapResult(fis, rtoken, input, inputIsFis).0 <= if inputIsFis then rtoken else fis
  {
    if fis > 0 && rtoken > 0 {
      SwapResultIsTradeOut(fis, rtoken, input, inputIsFis);
      QuarterBound(input, if inputIsFis then fis else rtoken, if inputIsFis then rtoken else fis);
    }
  }

  /** The output as a function of the input: rising while x*z <= X^2, falling after. */
  lemma SwapShape(fis: u128, rtoken: u128, x: u128, z: u128, inputIsFis: bool)
    requires fis > 0 && rtoken > 0 && x <= z
    ensures var bigX := if inputIsFis then fis else rtoken;
            var outX, outZ := CalSwapResult(fis, rtoken, x, inputIsFis).0, CalSwapResult(fis, rtoken, z, inputIsFis).0;
            && (Times(x, z) <= Times(bigX, bigX) ==> outX <= outZ)
            && (Times(x, z) >= Times(bigX, bigX) ==> outX >= outZ)
  {
    hide Times, CalSwapResult;
    var bigX := if inputIsFis then fis else rtoken;
    TimesIsProduct(x, z);
    TimesIsProduct(bigX, bigX);
    SwapResultIsTradeOut(fis, rtoken, x, inputIsFis);
    SwapResultIsTradeOut(fis, rtoken, z, inputIsFis);
    OutputShape(x, z, bigX, if inputIsFis then rtoken else fis);
  }

  /** F'*R' >= F*R */
  predicate ProductKept(p: SwapPool, q: SwapPool) { Times(q.fis, q.rtoken) >= Times(p.fis, p.rtoken) }

  lemma ProductKeptIs(p: SwapPool, q: SwapPool)
    ensures ProductKept(p, q) <==> q.fis * q.rtoken >= p.fis * p.rtoken
  {
    TimesIsProduct(q.fis, q.rtoken);
    TimesIsProduct(p.fis, p.rtoken);
  }

  lemma BackLoses(fis: u128, rtoken: u128, input: u128, inputIsFis: bool, fis': u128, rtoken': u128, out: u128)
    requires fis > 0 && rtoken > 0 && out == CalSwapResult(fis, rtoken, input, inputIsFis).0
    requires inputIsFis ==> fis' == fis + input && rtoken' + out == rtoken
    requires !inputIsFis ==> rtoken' == rtoken + input && fis' + out == fis
    ensures CalSwapResult(fis', rtoken', out, !inputIsFis).0 <= input
  {
    hide CalSwapResult;
    SwapResultIsTradeOut(fis, rtoken, input, inputIsFis);
    RoundTripLoses(input, if inputIsFis then fis else rtoken, if inputIsFis then rtoken else fis);
    SwapResultIsTradeOut(fis', rtoken', out, !inputIsFis);
  }

  /** A swap keeps the product of the reserves, and swapping its output straight back pays at most its input. */
  lemma SwapPricing(d: State, who: Account, s: RSymbol, input: u128, minOut: u128, inputIsFis: bool, payable: bool)
    requires Custody(d) && who != MODULE && Swap(d, who, s, input, minOut, inputIsFis, payable).1.None?
    ensures var d' := Swap(d, who, s, input, minOut, inputIsFis, payable).0;
            && s in d.pools && s in d'.pools && ProductKept(d.pools[s], d'.pools[s])
            && var out := CalSwapResult(d.pools[s].fis, d.pools[s].rtoken, input, inputIsFis).0;
               CalSwapResult(d'.pools[s].fis, d'.pools[s].rtoken, out, !inputIsFis).0 <= input
  {
    assert SymbolHeld(d, s);
    SwapKeeps(d, who, s, input, minOut, inputIsFis, payable);
    var p, q := d.pools[s], Swap(d, who, s, input, minOut, inputIsFis, payable).0.pools[s];
    SwapResultIsTradeOut(p.fis, p.rtoken, input, inputIsFis);
    TradeProduct(p.fis, p.rtoken, input, inputIsFis, q.fis, q.rtoken);
    ProductKeptIs(p, q);
    BackLoses(p.fis, p.rtoken, input, inputIsFis, q.fis, q.rtoken, CalSwapResult(p.fis, p.rtoken, input, inputIsFis).0);
  }

  // ----- liquidity

  /** f*R + r*F: what (f, r) is worth at the price of p, in units of F*R. */
  function Worth(p: SwapPool, f: nat, r: nat): nat { Times(f, p.rtoken) + Times(r, p.fis) }

  lemma WorthIs(p: SwapPool, f: nat, r: nat)
    ensures Worth(p, f, r) == f * p.rtoken + r * p.fis
  {
    TimesIsProduct(f, p.rtoken);
    TimesIsProduct(r, p.fis);
  }

  /** (F'*R + R'*F)*P >= 2*F*R*P': a unit of q is worth at least a unit of p, at the price of p. */
  predicate UnitValueKept(p: SwapPool, q: SwapPool)
  {
    Times(Worth(p, q.fis, q.rtoken), p.units) >= Times(2 * Times(p.fis, p.rtoken), q.units)
  }

  lemma UnitValueKeptIs(p: SwapPool, q: SwapPool)
    ensures UnitValueKept(p, q) <==> (q.fis * p.rtoken + q.rtoken * p.fis) * p.units >= 2 * p.fis * p.rtoken * q.units
  {
    hide Times, Worth;
    WorthIs(p, q.fis, q.rtoken);
    TimesIsProduct(q.fis * p.rtoken + q.rtoken * p.fis, p.units);
    TimesIsProduct(p.fis, p.rtoken);
    TimesIsProduct(2 * (p.fis * p.rtoken), q.units);
    assert 2 * (p.fis * p.rtoken) * q.units == 2 * p.fis * p.rtoken * q.units;
  }

  lemma NoChangeKeeps(p: SwapPool)
    ensures UnitValueKept(p, p)
  {
    UnitValueKeptIs(p, p);
    assert (p.fis * p.rtoken + p.rtoken * p.fis) * p.units == 2 * p.fis * p.rtoken * p.units;
  }

  lemma FewerUnitsKeep(f: nat, r: nat, p: nat, f': nat, r': nat, small: nat, big: nat)
    requires (f' * r + r' * f) * p >= 2 * f * r * big && small <= big
    ensures (f' * r + r' * f) * p >= 2 * f * r * small
  {
    MulMono(small, big, 2 * f * r);
  }

  lemma AddedKeeps(p: SwapPool, f: u128, r: u128, q: SwapPool)
    requires p.fis > 0 && p.rtoken > 0 && (f > 0 || r > 0)
    requires q.fis == p.fis + f && q.rtoken == p.rtoken + r && q.units == CalPoolUnit(p.units, p.fis, p.rtoken, f, r).0
    ensures UnitValueKept(p, q)
  {
    hide UnitValueKept, Units, CalPoolUnit;
    PoolUnitExact(p.units, p.fis, p.rtoken, f, r);
    ValuePerUnitKept(p.units, p.fis, p.rtoken, f, r);
    FewerUnitsKeep(p.fis, p.rtoken, p.units, q.fis, q.rtoken, q.units, p.units + Units(p.units, p.fis, p.rtoken, f, r));
    UnitValueKeptIs(p, q);
  }

  /** Every add, clamped or not, keeps the value per unit at the pre-add price. */
  lemma AddKeepsUnitValue(d: State, who: Account, s: RSymbol, r: u128, f: u128, allowed: bool, payable: bool)
    requires Custody(d) && who != MODULE && s in d.pools && d.pools[s].units > 0
    ensures var d' := AddLiquidity(d, who, s, r, f, allowed, payable).0;
            s in d'.pools && UnitValueKept(d.pools[s], d'.pools[s])
  {
    hide UnitValueKept, CalPoolUnit;
    assert SymbolHeld(d, s);
    AddKeeps(d, who, s, r, f, allowed, payable);
    var (d', e) := AddLiquidity(d, who, s, r, f, allowed, payable);
    if e.None? {
      AddedKeeps(d.pools[s], f, r, d'.pools[s]);
    } else {
      NoChangeKeeps(d.pools[s]);
    }
  }

  /** What a provider gets for removing all the units an add has just granted. */
  function BackOut(p: SwapPool, q: SwapPool, f: u128, r: u128): (u128, u128)
  {
    var out := CalRemoveResult(q.units, CalPoolUnit(p.units, p.fis, p.rtoken, f, r).1, 0, q.fis, q.rtoken, true);
    (out.0, out.1)
  }

  lemma BackOutIs(p: SwapPool, q: SwapPool, f: u128, r: u128)
    requires p.fis > 0 && p.rtoken > 0 && (f > 0 || r > 0)
    requires CalPoolUnit(p.units, p.fis, p.rtoken, f, r).1 > 0
    requires q.units == CalPoolUnit(p.units, p.fis, p.rtoken, f, r).0
    ensures var granted, all := CalPoolUnit(p.units, p.fis, p.rtoken, f, r).1, Units(p.units, p.fis, p.rtoken, f, r);
            && q.units > 0 && granted <= all
            && (p.units + all <= U128_MAX ==> granted == all && q.units == p.units + all)
            && BackOut(p, q, f, r) == (Redeem(granted, q.units, q.fis), Redeem(granted, q.units, q.rtoken))
  {
    hide Units, RawUnits, Redeem, CalRemoveResult, CalPoolUnit;
    PoolUnitExact(p.units, p.fis, p.rtoken, f, r);
    RemoveResultExact(q, CalPoolUnit(p.units, p.fis, p.rtoken, f, r).1, 0, true);
  }

  /** The laws of an add followed by the removal of its units. */
  predicate NoGain(p: SwapPool, f: u128, r: u128, out: (u128, u128))
  {
    && Worth(p, out.0, out.1) <= Worth(p, f, r)
    && !(out.0 > f && out.1 > r)
    && (ProportionalTo(p, f, r) ==> out.0 <= f && out.1 <= r)
  }

  /** The pool's units after the add, before any clamp. */
  function UnclampedTotal(p: SwapPool, f: nat, r: nat): nat
    requires p.fis > 0 && p.rtoken > 0
  {
    p.units + Units(p.units, p.fis, p.rtoken, f, r)
  }

  /** What comes back is worth no more than what went in, times the share of the total that a clamp cuts off. */
  predicate GainBounded(p: SwapPool, q: SwapPool, f: u128, r: u128, out: (u128, u128))
    requires p.fis > 0 && p.rtoken > 0
  {
    Times(Worth(p, out.0, out.1), q.units) <= Times(Worth(p, f, r), UnclampedTotal(p, f, r))
  }

  lemma BackOutBounded(p: SwapPool, q: SwapPool, f: u128, r: u128)
    requires p.fis > 0 && p.rtoken > 0 && (f > 0 || r > 0)
    requires q.fis == p.fis + f && q.rtoken == p.rtoken + r
    requires CalPoolUnit(p.units, p.fis, p.rtoken, f, r).1 > 0
    requires q.units == CalPoolUnit(p.units, p.fis, p.rtoken, f, r).0
    ensures GainBounded(p, q, f, r, BackOut(p, q, f, r))
  {
    hide Units, Redeem, Worth, BackOut, CalPoolUnit;
    BackOutIs(p, q, f, r);
    var out := BackOut(p, q, f, r);
    WorthIs(p, out.0, out.1);
    WorthIs(p, f, r);
    RemoveAfterAdd(p.units, p.fis, p.rtoken, f, r, CalPoolUnit(p.units, p.fis, p.rtoken, f, r).1, q.units);
    TimesIsProduct(Worth(p, out.0, out.1), q.units);
    TimesIsProduct(Worth(p, f, r), UnclampedTotal(p, f, r));
  }

  lemma BackOutGainsNothing(p: SwapPool, q: SwapPool, f: u128, r: u128)
    requires p.fis > 0 && p.rtoken > 0 && p.units > 0 && (f > 0 || r > 0)
    requires UnclampedTotal(p, f, r) <= U128_MAX && CalPoolUnit(p.units, p.fis, p.rtoken, f, r).1 > 0
    requires q.fis == p.fis + f && q.rtoken == p.rtoken + r && q.units == CalPoolUnit(p.units, p.fis, p.rtoken, f, r).0
    ensures NoGain(p, f, r, BackOut(p, q, f, r))
  {
    hide Units, Redeem, Worth, ProportionalTo, BackOut, CalPoolUnit;
    BackOutIs(p, q, f, r);
    var (outF, outR) := BackOut(p, q, f, r);
    WorthIs(p, outF, outR);
    WorthIs(p, f, r);
    ProportionalToIs(p, f, r);
    AddThenRemove(p.units, p.fis, p.rtoken, f, r);
    if ProportionalTo(p, f, r) {
      ProportionalRoundTrip(p.units, p.fis, p.rtoken, f, r);
    }
  }

  /** Adding, and removing the granted units, returns at the pre-add price at most what went in times the unclamped
      over the stored total; so when the total does not clamp no more value, never more of both tokens, and after
      a proportional add no more of either. */
  lemma AddThenRemovePricing(d: State, who: Account, s: RSymbol, r: u128, f: u128, allowed: bool, payable: bool)
    requires Custody(d) && who != MODULE && s in d.pools && d.pools[s].units > 0
    requires AddLiquidity(d, who, s, r, f, allowed, payable).1.None?
    ensures var d' := AddLiquidity(d, who, s, r, f, allowed, payable).0; var p := d.pools[s];
            && s in d'.pools && p.fis > 0 && p.rtoken > 0
            && GainBounded(p, d'.pools[s], f, r, BackOut(p, d'.pools[s], f, r))
            && (UnclampedTotal(p, f, r) <= U128_MAX ==> NoGain(p, f, r, BackOut(p, d'.pools[s], f, r)))
  {
    hide UnclampedTotal, GainBounded, NoGain, BackOut, CalPoolUnit, AddLiquidity;
    assert SymbolHeld(d, s);
    AddKeeps(d, who, s, r, f, allowed, payable);
    var p, q := d.pools[s], AddLiquidity(d, who, s, r, f, allowed, payable).0.pools[s];
    AddGrants(d, who, s, r, f, allowed, payable);
    BackOutBounded(p, q, f, r);
    if UnclampedTotal(p, f, r) <= U128_MAX {
      BackOutGainsNothing(p, q, f, r);
    }
  }

  lemma AddGrants(d: State, who: Account, s: RSymbol, r: u128, f: u128, allowed: bool, payable: bool)
    requires AddLiquidity(d, who, s, r, f, allowed, payable).1.None?
    ensures s in d.pools && (f > 0 || r > 0)
            && CalPoolUnit(d.pools[s].units, d.pools[s].fis, d.pools[s].rtoken, f, r).1 > 0
  {
    hide CalPoolUnit;
  }
}
