/** What the calls of rdex/swap do to the balances of traders, providers and the module. */
module DexEffects {
  import opened Arithmetic
  import opened Primitives
  import opened SwapMath
  import opened Tokens
  import opened Dex
  import opened DexCustody
  import opened DexDepth

  /** Only the rTokens of s have moved. */
  ghost predicate OnlySymbol(d: State, d': State, s: RSymbol)
  {
    forall t: RSymbol :: t != s ==> RBank(d', t) == RBank(d, t) && LpBank(d', t) == LpBank(d, t)
  }

  // ----- swaps

  /** A trader pays exactly the input and gets exactly what the formula gives, at least what was asked for; the
      module gains and loses the same, the pool records it, and nothing else moves. */
  lemma SwapDoes(d: State, who: Account, s: RSymbol, input: u128, minOut: u128, inputIsFis: bool, payable: bool)
    requires Custody(d) && who != MODULE && Swap(d, who, s, input, minOut, inputIsFis, payable).1.None?
    ensures var d' := Swap(d, who, s, input, minOut, inputIsFis, payable).0;
            && s in d.pools && d.pools[s].fis > 0 && d.pools[s].rtoken > 0
            && var p, out := d.pools[s], TradeOut(d.pools[s].fis, d.pools[s].rtoken, input, inputIsFis);
               && 0 < minOut <= out && OnlySymbol(d, d', s) && d'.lps == d.lps
               && (inputIsFis ==>
                     && Pays(d.fis, d'.fis, who, MODULE, input)
                     && Pays(RBank(d, s), RBank(d', s), MODULE, who, out) && p.fis + input <= U128_MAX
                        && out <= p.rtoken
                     && d'.pools == d.pools[s := SwapPool(p.fis + input, p.rtoken - out, p.units)])
               && (!inputIsFis ==>
                     && Pays(d.fis, d'.fis, MODULE, who, out)
                     && Pays(RBank(d, s), RBank(d', s), who, MODULE, input) && p.rtoken + input <= U128_MAX
                        && out <= p.fis
                     && d'.pools == d.pools[s := SwapPool(p.fis - out, p.rtoken + input, p.units)])
  {
    hide CalSwapResult, Custody, SymbolHeld, Transfer, Pays, Free, TradeOut;
    SwapKeeps(d, who, s, input, minOut, inputIsFis, payable);
    SwapPriced(d, who, s, input, minOut, inputIsFis, payable);
    var p := d.pools[s];
    var out := CalSwapResult(p.fis, p.rtoken, input, inputIsFis).0;
    if inputIsFis {
      TransferPays(d.fis, who, MODULE, input);
      TransferPays(RBank(d, s), MODULE, who, out);
    } else {
      TransferPays(d.fis, MODULE, who, out);
      TransferPays(RBank(d, s), who, MODULE, input);
    }
  }

  lemma SwapPriced(d: State, who: Account, s: RSymbol, input: u128, minOut: u128, inputIsFis: bool, payable: bool)
    requires Custody(d) && who != MODULE && Swap(d, who, s, input, minOut, inputIsFis, payable).1.None?
    ensures s in d.pools && d.pools[s].fis > 0 && d.pools[s].rtoken > 0
    ensures var p := d.pools[s]; CalSwapResult(p.fis, p.rtoken, input, inputIsFis).0 == TradeOut(p.fis, p.rtoken,
        input, inputIsFis)
  {
    assert SymbolHeld(d, s);
    var p := d.pools[s];
    if p.fis > 0 && p.rtoken > 0 {
      SwapResultIsTradeOut(p.fis, p.rtoken, input, inputIsFis);
    }
  }

  /** A swap succeeds exactly if the output meets what was asked for, the trader has the input (and in FIS some left),
      and the receiving side has room. */
  lemma SwapSucceeds(d: State, who: Account, s: RSymbol, input: u128, minOut: u128, inputIsFis: bool, payable: bool)
    requires Custody(d) && who != MODULE
    ensures Swap(d, who, s, input, minOut, inputIsFis, payable).1.None? <==>
              && s in d.pools && input > 0 && minOut > 0 && payable && d.pools[s].fis > 0 && d.pools[s].rtoken > 0
              && var out := TradeOut(d.pools[s].fis, d.pools[s].rtoken, input, inputIsFis);
                 && minOut <= out
                 && if inputIsFis then Free(d.fis, who) > input && Free(d.fis, MODULE) + input <= U128_MAX
                    else Free(RBank(d, s), who) >= input && Free(d.fis, who) + out <= U128_MAX
  {
    hide CalSwapResult, TradeOut, SwapFisIn, SwapRtokenIn, Free;
    if s in d.pools {
      assert SymbolHeld(d, s);
      var p := d.pools[s];
      if p.fis > 0 && p.rtoken > 0 {
        var out := CalSwapResult(p.fis, p.rtoken, input, inputIsFis).0;
        SwapResultIsTradeOut(p.fis, p.rtoken, input, inputIsFis);
        QuarterOut(p, input, inputIsFis);
        if input > 0 && out > 0 && inputIsFis {
          FisInSucceeds(d, who, s, input, out, payable);
        } else if input > 0 && out > 0 {
          RtokenInSucceeds(d, who, s, input, out, payable);
        }
      } else {
        EmptyGivesNothing(p, input, inputIsFis);
      }
    }
  }

  lemma QuarterOut(p: SwapPool, input: u128, inputIsFis: bool)
    requires p.fis > 0 && p.rtoken > 0
    ensures 4 * TradeOut(p.fis, p.rtoken, input, inputIsFis) <= if inputIsFis then p.rtoken else p.fis
  {
    hide SwapOut;
    QuarterBound(input, if inputIsFis then p.fis else p.rtoken, if inputIsFis then p.rtoken else p.fis);
  }

  lemma EmptyGivesNothing(p: SwapPool, input: u128, inputIsFis: bool)
    requires p.fis == 0 || p.rtoken == 0
    ensures CalSwapResult(p.fis, p.rtoken, input, inputIsFis).0 == 0
  {
  }

  lemma FisInSucceeds(d: State, who: Account, s: RSymbol, input: u128, out: u128, payable: bool)
    requires Custody(d) && who != MODULE && s in d.pools && input > 0 && 0 < out < d.pools[s].rtoken
    ensures SwapFisIn(d, who, s, input, out, payable).1.None? <==>
              payable && Free(d.fis, who) > input && Free(d.fis, MODULE) + input <= U128_MAX
  {
    assert SymbolHeld(d, s);
    TransferFailsOnlyShort(RBank(d, s), MODULE, who, out);
  }

  lemma RtokenInSucceeds(d: State, who: Account, s: RSymbol, input: u128, out: u128, payable: bool)
    requires Custody(d) && who != MODULE && s in d.pools && input > 0 && 0 < out < d.pools[s].fis
    ensures SwapRtokenIn(d, who, s, input, out, payable).1.None? <==>
              payable && Free(RBank(d, s), who) >= input && Free(d.fis, who) + out <= U128_MAX
  {
    assert SymbolHeld(d, s);
    ReserveHeld(d, s);
    TransferFailsOnlyShort(RBank(d, s), who, MODULE, input);
  }

  // ----- adds

  /** The transfers, the LP mint and the pool write of an add. */
  lemma FundDoes(d: State, who: Account, s: RSymbol, r: u128, f: u128, units: u128, pool: SwapPool, payable: bool)
    requires Fund(d, who, s, r, f, units, pool, payable).1.None?
    ensures var d' := Fund(d, who, s, r, f, units, pool, payable).0;
            && OnlySymbol(d, d', s) && d'.pools == d.pools[s := pool]
            && Pays(d.fis, d'.fis, who, MODULE, f) && Pays(RBank(d, s), RBank(d', s), who, MODULE, r)
            && Credits(LpBank(d, s), LpBank(d', s), who, units)
  {
    hide Transfer, Mint, Pays, Credits, Free;
    TransferPays(d.fis, who, MODULE, f);
    NothingPays(d.fis, who, MODULE);
    TransferPays(RBank(d, s), who, MODULE, r);
    MintCredits(LpBank(d, s), who, units);
  }

  /** A provider pays exactly what it adds, and is credited with exactly the units of the formula, or with the
      FIS added to an empty pool. */
  lemma AddDoes(d: State, who: Account, s: RSymbol, r: u128, f: u128, allowed: bool, payable: bool)
    requires Custody(d) && who != MODULE && AddLiquidity(d, who, s, r, f, allowed, payable).1.None?
    ensures var d' := AddLiquidity(d, who, s, r, f, allowed, payable).0;
            && allowed && s in d.pools && OnlySymbol(d, d', s)
            && Pays(d.fis, d'.fis, who, MODULE, f) && Pays(RBank(d, s), RBank(d', s), who, MODULE, r)
            && var p := d.pools[s];
               && p.fis + f <= U128_MAX && p.rtoken + r <= U128_MAX
               && if p.units == 0 then
                    && Credits(LpBank(d, s), LpBank(d', s), who, f) && d'.pools == d.pools[s := SwapPool(f, r, f)]
                  else
                    && p.fis > 0 && p.rtoken > 0
                    && var units := Units(p.units, p.fis, p.rtoken, f, r);
                       && Credits(LpBank(d, s), LpBank(d', s), who, Min(units, U128_MAX))
                       && d'.pools == d.pools[s := SwapPool(p.fis + f, p.rtoken + r, Min(p.units + units, U128_MAX))]
  {
    hide CalPoolUnit, Custody, SymbolHeld, Fund, Pays, Credits, Free, Units, OnlySymbol;
    AddKeeps(d, who, s, r, f, allowed, payable);
    AddUnits(d, who, s, r, f, allowed, payable);
    var p := d.pools[s];
    var (total, add) := CalPoolUnit(p.units, p.fis, p.rtoken, f, r);
    FundDoes(d, who, s, r, f, add, SwapPool(SatAdd(p.fis, f), SatAdd(p.rtoken, r), total), payable);
  }

  lemma NothingPays(b: Bank, from: Account, to: Account)
    ensures Pays(b, b, from, to, 0)
  {
  }

  lemma AddUnits(d: State, who: Account, s: RSymbol, r: u128, f: u128, allowed: bool, payable: bool)
    requires Custody(d) && who != MODULE && AddLiquidity(d, who, s, r, f, allowed, payable).1.None?
    ensures s in d.pools
    ensures var p := d.pools[s]; var (total, add) := CalPoolUnit(p.units, p.fis, p.rtoken, f, r);
            if p.units == 0 then p.fis == 0 && p.rtoken == 0 && total == f && add == f
            else p.fis > 0 && p.rtoken > 0 && total == Min(p.units + Units(p.units, p.fis, p.rtoken, f, r), U128_MAX)
                 && add == Min(Units(p.units, p.fis, p.rtoken, f, r), U128_MAX)
  {
    hide Units, RawUnits;
    assert SymbolHeld(d, s);
    var p := d.pools[s];
    if p.units > 0 {
      PoolUnitExact(p.units, p.fis, p.rtoken, f, r);
    }
  }

  /** Creating a pool, likewise: the first provider gets one unit for every FIS. */
  lemma CreateDoes(d: State, who: Account, s: RSymbol, r: u128, f: u128, payable: bool)
    requires Custody(d) && who != MODULE && CreatePool(d, who, s, r, f, payable).1.None?
    ensures var d' := CreatePool(d, who, s, r, f, payable).0;
            && s !in d.pools && f > 0 && r > 0 && OnlySymbol(d, d', s)
            && Pays(d.fis, d'.fis, who, MODULE, f) && Pays(RBank(d, s), RBank(d', s), who, MODULE, r)
            && Credits(LpBank(d, s), LpBank(d', s), who, f) && d'.pools == d.pools[s := SwapPool(f, r, f)]
  {
    hide Fund, Pays, Credits, Free, OnlySymbol;
    FundDoes(d, who, s, r, f, f, SwapPool(f, r, f), payable);
  }

  // ----- removals

  /** What a removal takes and trades before it leaves the pool: shares of the reserves, and of the input side's. */
  function Share(p: SwapPool, rm: u128): (nat, nat)
    requires p.units > 0
  {
    (Redeem(Min(rm, p.units), p.units, p.fis), Redeem(Min(rm, p.units), p.units, p.rtoken))
  }

  /** The pool a removal leaves: less the share, with the part to be swapped traded against the rest. */
  lemma RemovalLeaves(p: SwapPool, rm: u128, swapUnits: u128, inputIsFis: bool)
    requires Balanced(p) && p.units > 0 && 0 < rm && swapUnits <= rm && RemovalOf(p, rm, swapUnits, inputIsFis).Removal?
    ensures var q, (f, r) := RemovalOf(p, rm, swapUnits, inputIsFis).pool, Share(p, rm);
            var x := Redeem(swapUnits, p.units, if inputIsFis then p.fis else p.rtoken);
            && f <= p.fis && r <= p.rtoken && q.units == SatSub(p.units, rm)
            && (x == 0 ==> q.fis == p.fis - f && q.rtoken == p.rtoken - r)
            && (x > 0 ==>
                  && p.fis - f > 0 && p.rtoken - r > 0
                  && (inputIsFis ==>
                        q.fis == p.fis - f + x && q.rtoken + SwapOut(x, p.fis - f, p.rtoken - r) == p.rtoken - r)
                  && (!inputIsFis ==>
                        q.rtoken == p.rtoken - r + x && q.fis + SwapOut(x, p.rtoken - r, p.fis - f) == p.fis - f))
  {
    hide CalRemoveResult, CalSwapResult, Redeem, SwapOut;
    RemoveResultExact(p, rm, swapUnits, inputIsFis);
    ShareTaken(p, rm, swapUnits, inputIsFis);
    var (f, r, input) := CalRemoveResult(p.units, rm, swapUnits, p.fis, p.rtoken, inputIsFis);
    var left := SwapPool(p.fis - f, p.rtoken - r, SatSub(p.units, rm));
    SwapBackConserves(left, f, r, input, inputIsFis);
    if input > 0 {
      SwapResultIsTradeOut(left.fis, left.rtoken, input, inputIsFis);
      InputFits(p, rm, swapUnits, inputIsFis);
    }
  }

  /** With a part to be swapped, something of the pool is left, so that part is within its share. */
  lemma InputFits(p: SwapPool, rm: u128, swapUnits: u128, inputIsFis: bool)
    requires Balanced(p) && p.units > 0 && 0 < rm && swapUnits <= rm
    requires var (f, r, input) := CalRemoveResult(p.units, rm, swapUnits, p.fis, p.rtoken, inputIsFis);
             input > 0 && p.fis > f
    ensures Redeem(swapUnits, p.units, if inputIsFis then p.fis else p.rtoken) <= U128_MAX
  {
    hide CalRemoveResult, Redeem;
    RemoveResultExact(p, rm, swapUnits, inputIsFis);
    if rm >= p.units {
      ShareKept(p.units, p.units, p.fis);
    } else {
      ShareKept(swapUnits, p.units, if inputIsFis then p.fis else p.rtoken);
    }
  }

  /** The payouts, the LP burn and the pool write of a removal. */
  lemma PayOutDoes(d: State, who: Account, s: RSymbol, rm: u128, fisOut: u128, rtokenOut: u128, pool: SwapPool,
                   payable: bool)
    requires PayOut(d, who, s, rm, fisOut, rtokenOut, pool, payable).1.None?
    ensures var d' := PayOut(d, who, s, rm, fisOut, rtokenOut, pool, payable).0;
            && OnlySymbol(d, d', s) && d'.pools == d.pools[s := pool]
            && Pays(d.fis, d'.fis, MODULE, who, fisOut) && Pays(RBank(d, s), RBank(d', s), MODULE, who, rtokenOut)
            && Debits(LpBank(d, s), LpBank(d', s), who, rm)
  {
    hide Transfer, Burn, Pays, Debits, Free;
    TransferPays(d.fis, MODULE, who, fisOut);
    NothingPays(d.fis, MODULE, who);
    TransferPays(RBank(d, s), MODULE, who, rtokenOut);
    BurnDebits(LpBank(d, s), who, rm);
  }

  /** The provider is paid exactly what leaves the pool, at least what was asked for, and its units are burned. */
  lemma RemoveDoes(d: State, who: Account, s: RSymbol, rm: u128, swapUnits: u128, minFis: u128, minRtoken: u128,
                   inputIsFis: bool, payable: bool)
    requires Custody(d) && who != MODULE
    requires RemoveLiquidity(d, who, s, rm, swapUnits, minFis, minRtoken, inputIsFis, payable).1.None?
    ensures var d' := RemoveLiquidity(d, who, s, rm, swapUnits, minFis, minRtoken, inputIsFis, payable).0;
            && s in d.pools && s in d'.pools && OnlySymbol(d, d', s)
            && var p, q := d.pools[s], d'.pools[s];
               && q.fis + minFis <= p.fis && q.rtoken + minRtoken <= p.rtoken && d'.pools == d.pools[s := q]
               && Pays(d.fis, d'.fis, MODULE, who, p.fis - q.fis)
               && Pays(RBank(d, s), RBank(d', s), MODULE, who, p.rtoken - q.rtoken)
               && Debits(LpBank(d, s), LpBank(d', s), who, rm)
               && RemovalOf(p, rm, swapUnits, inputIsFis).Removal? && q == RemovalOf(p, rm, swapUnits, inputIsFis).pool
  {
    hide RemovalOf, PayOut, Pays, Debits, Free, OnlySymbol;
    assert SymbolHeld(d, s);
    var m := RemovalOf(d.pools[s], rm, swapUnits, inputIsFis);
    RemovalConserves(d.pools[s], rm, swapUnits, inputIsFis);
    PayOutDoes(d, who, s, rm, m.fisOut, m.rtokenOut, m.pool, payable);
  }
}
