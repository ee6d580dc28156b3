/** Depth of a pool: the product of its reserves per squared unit. Swaps,
    removals and proportional adds never lower it, over whole runs. */
module DexDepth {
  import opened Arithmetic
  import opened Primitives
  import opened Sums
  import opened SwapMath
  import opened Tokens
  import opened Dex
  import opened DexCustody

  predicate Deeper(p: SwapPool, q: SwapPool) { DeeperBy(p.fis, p.rtoken, p.units, q.fis, q.rtoken, q.units) }

  lemma ProductDeeper(p: SwapPool, q: SwapPool)
    requires q.units == p.units && q.fis * q.rtoken >= p.fis * p.rtoken
    ensures Deeper(p, q)
  {
    hide DeeperBy;
    DeeperIs(p.fis, p.rtoken, p.units, q.fis, q.rtoken, q.units);
    MulMono(p.fis * p.rtoken, q.fis * q.rtoken, p.units * p.units);
  }

  lemma DeeperThenGrow(p: SwapPool, left: SwapPool, q: SwapPool)
    requires Deeper(p, left) && q.units == left.units && q.fis * q.rtoken >= left.fis * left.rtoken
    ensures Deeper(p, q)
  {
    hide DeeperBy;
    DeeperIs(p.fis, p.rtoken, p.units, left.fis, left.rtoken, left.units);
    DeeperIs(p.fis, p.rtoken, p.units, q.fis, q.rtoken, q.units);
    MulMono(left.fis * left.rtoken, q.fis * q.rtoken, p.units * p.units);
  }

  lemma DeeperChain(p: SwapPool, q: SwapPool, z: SwapPool)
    requires q.units > 0 && Deeper(p, q) && Deeper(q, z)
    ensures Deeper(p, z)
  {
    hide DeeperBy;
    DeeperIs(p.fis, p.rtoken, p.units, q.fis, q.rtoken, q.units);
    DeeperIs(q.fis, q.rtoken, q.units, z.fis, z.rtoken, z.units);
    DeeperIs(p.fis, p.rtoken, p.units, z.fis, z.rtoken, z.units);
    MulBound(1, q.units, 1, q.units);
    DeeperTransitive(p.fis * p.rtoken, p.units * p.units, q.fis * q.rtoken, q.units * q.units,
                     z.fis * z.rtoken, z.units * z.units);
  }

  /** The exact output of a swap on reserves (F, R), in either direction. */
  function TradeOut(fis: nat, rtoken: nat, input: nat, inputIsFis: bool): nat
    requires fis > 0 && rtoken > 0
  {
    if inputIsFis then SwapOut(input, fis, rtoken) else SwapOut(input, rtoken, fis)
  }

  lemma SwapResultIsTradeOut(fis: u128, rtoken: u128, input: u128, inputIsFis: bool)
    requires fis > 0 && rtoken > 0
    ensures CalSwapResult(fis, rtoken, input, inputIsFis).0 == TradeOut(fis, rtoken, input, inputIsFis)
  {
    hide Slipped;
    OutputExact(input, if inputIsFis then fis else rtoken, if inputIsFis then rtoken else fis);
  }

  /** One swap never lowers the product of the reserves. */
  lemma TradeProduct(fis: nat, rtoken: nat, input: nat, inputIsFis: bool, fis': nat, rtoken': nat)
    requires fis > 0 && rtoken > 0
    requires inputIsFis ==> fis' == fis + input && rtoken' + TradeOut(fis, rtoken, input, inputIsFis) == rtoken
    requires !inputIsFis ==> rtoken' == rtoken + input && fis' + TradeOut(fis, rtoken, input, inputIsFis) == fis
    ensures fis' * rtoken' >= fis * rtoken
  {
    if inputIsFis {
      ProductGrows(input, fis, rtoken);
    } else {
      ProductGrows(input, rtoken, fis);
      assert fis' * rtoken' == rtoken' * fis' && fis * rtoken == rtoken * fis;
    }
  }

  lemma SwapDeeper(d: State, who: Account, s: RSymbol, input: u128, minOut: u128, inputIsFis: bool, payable: bool)
    requires Custody(d) && who != MODULE && s in d.pools && d.pools[s].units > 0
    ensures var d' := Swap(d, who, s, input, minOut, inputIsFis, payable).0;
            s in d'.pools && Deeper(d.pools[s], d'.pools[s])
  {
    assert SymbolHeld(d, s);
    SwapKeeps(d, who, s, input, minOut, inputIsFis, payable);
    var (d', e) := Swap(d, who, s, input, minOut, inputIsFis, payable);
    if e.None? {
      SwapResultIsTradeOut(d.pools[s].fis, d.pools[s].rtoken, input, inputIsFis);
      TradeProduct(d.pools[s].fis, d.pools[s].rtoken, input, inputIsFis, d'.pools[s].fis, d'.pools[s].rtoken);
      ProductDeeper(d.pools[s], d'.pools[s]);
    }
  }

  lemma ShareDeeper(p: SwapPool, rm: u128, swapUnits: u128, inputIsFis: bool, left: SwapPool)
    requires p.units > 0 && rm > 0
    requires var (f, r, _) := CalRemoveResult(p.units, rm, swapUnits, p.fis, p.rtoken, inputIsFis);
             left.fis + f == p.fis && left.rtoken + r == p.rtoken && left.units == SatSub(p.units, rm)
    ensures Deeper(p, left)
  {
    RemoveResultExact(p, rm, swapUnits, inputIsFis);
    var u := Min(rm, p.units);
    ShareKept(u, p.units, p.fis);
    ShareKept(u, p.units, p.rtoken);
    DeeperFactors(p.fis, p.rtoken, p.units, left.fis, left.rtoken, left.units);
  }

  lemma SwapBackDeeper(p: SwapPool, left: SwapPool, f: u128, r: u128, input: u128, inputIsFis: bool)
    requires Deeper(p, left)
    requires left.fis + f <= U128_MAX && left.rtoken + r <= U128_MAX
    requires Balanced(left) && (left.units > 0 ==> input <= if inputIsFis then f else r)
    requires SwapBack(left, f, r, input, inputIsFis).Removal?
    ensures Deeper(p, SwapBack(left, f, r, input, inputIsFis).pool)
  {
    var m := SwapBack(left, f, r, input, inputIsFis);
    SwapBackConserves(left, f, r, input, inputIsFis);
    if input > 0 {
      SwapResultIsTradeOut(left.fis, left.rtoken, input, inputIsFis);
      TradeProduct(left.fis, left.rtoken, input, inputIsFis, m.pool.fis, m.pool.rtoken);
      DeeperThenGrow(p, left, m.pool);
    }
  }

  lemma RemovalDeeper(p: SwapPool, rm: u128, swapUnits: u128, inputIsFis: bool)
    requires Balanced(p) && p.units > 0 && rm > 0 && swapUnits <= rm
    requires RemovalOf(p, rm, swapUnits, inputIsFis).Removal?
    ensures Deeper(p, RemovalOf(p, rm, swapUnits, inputIsFis).pool)
  {
    ShareTaken(p, rm, swapUnits, inputIsFis);
    var (f, r, input) := CalRemoveResult(p.units, rm, swapUnits, p.fis, p.rtoken, inputIsFis);
    var left := SwapPool(p.fis - f, p.rtoken - r, SatSub(p.units, rm));
    ShareDeeper(p, rm, swapUnits, inputIsFis, left);
    SwapBackDeeper(p, left, f, r, input, inputIsFis);
  }

  lemma ProportionalDeeper(p: nat, bigF: nat, bigR: nat, f: nat, r: nat, a: nat)
    requires a * bigF <= p * f && a * bigR <= p * r
    ensures DeeperBy(bigF, bigR, p, bigF + f, bigR + r, p + a)
  {
    assert (bigF + f) * p == bigF * p + p * f && bigF * (p + a) == bigF * p + a * bigF;
    assert (bigR + r) * p == bigR * p + p * r && bigR * (p + a) == bigR * p + a * bigR;
    DeeperFactors(bigF, bigR, p, bigF + f, bigR + r, p + a);
  }

  lemma FewerUnitsDeeper(f: nat, r: nat, p: nat, f': nat, r': nat, big: nat, small: nat)
    requires DeeperBy(f, r, p, f', r', big) && small <= big
    ensures DeeperBy(f, r, p, f', r', small)
  {
    hide DeeperBy;
    DeeperIs(f, r, p, f', r', big);
    DeeperIs(f, r, p, f', r', small);
    MulBound(small, big, small, big);
    MulMono(small * small, big * big, f * r);
  }

  /** The amounts stand in the ratio of the reserves: F*r == f*R. */
  predicate ProportionalTo(p: SwapPool, f: nat, r: nat) { Times(p.fis, r) == Times(f, p.rtoken) }

  lemma ProportionalToIs(p: SwapPool, f: nat, r: nat)
    ensures ProportionalTo(p, f, r) <==> p.fis * r == f * p.rtoken
  {
    TimesIsProduct(p.fis, r);
    TimesIsProduct(f, p.rtoken);
  }

  lemma AddedDeeper(p: SwapPool, f: u128, r: u128, q: SwapPool)
    requires p.fis > 0 && p.rtoken > 0 && (f > 0 || r > 0) && ProportionalTo(p, f, r)
    requires q.fis == p.fis + f && q.rtoken == p.rtoken + r && q.units == CalPoolUnit(p.units, p.fis, p.rtoken, f, r).0
    ensures Deeper(p, q)
  {
    hide CalPoolUnit, Units, DeeperBy;
    var a := Units(p.units, p.fis, p.rtoken, f, r);
    ProportionalToIs(p, f, r);
    PoolUnitExact(p.units, p.fis, p.rtoken, f, r);
    ProportionalUnits(p.units, p.fis, p.rtoken, f, r);
    ProportionalDeeper(p.units, p.fis, p.rtoken, f, r, a);
    FewerUnitsDeeper(p.fis, p.rtoken, p.units, p.fis + f, p.rtoken + r, p.units + a, q.units);
  }

  lemma AddDeeper(d: State, who: Account, s: RSymbol, r: u128, f: u128, allowed: bool, payable: bool)
    requires Custody(d) && who != MODULE && s in d.pools && d.pools[s].units > 0
    requires ProportionalTo(d.pools[s], f, r)
    ensures var d' := AddLiquidity(d, who, s, r, f, allowed, payable).0;
            s in d'.pools && Deeper(d.pools[s], d'.pools[s])
  {
    hide Deeper, CalPoolUnit, ProportionalTo;
    assert SymbolHeld(d, s);
    AddKeeps(d, who, s, r, f, allowed, payable);
    var (d', e) := AddLiquidity(d, who, s, r, f, allowed, payable);
    if e.None? {
      AddedDeeper(d.pools[s], f, r, d'.pools[s]);
    } else {
      SameDepth(d.pools[s]);
    }
  }

  lemma OtherPoolsSame(d: State, c: Call, s: RSymbol)
    requires s in d.pools
    requires c.FisCall? || c.RtokenCall? || c.LpTransferCall? || c.s != s || c.CreateCall?
    ensures s in Step(d, c).pools && Step(d, c).pools[s] == d.pools[s]
  {
    hide CalSwapResult, CalPoolUnit, RemovalOf, Pay, Transfer, Mint, Burn, BankStep, Free, SatAdd, SatSub;
  }

  /** An add to s finds units in its pool, and is exactly proportional. */
  predicate Steady(d: State, s: RSymbol, c: Call)
  {
    c.AddCall? && c.s == s ==>
      s in d.pools && d.pools[s].units > 0 && ProportionalTo(d.pools[s], c.fisAmount, c.rtokenAmount)
  }

  /** An emptied pool stays empty until something is added to it. */
  lemma EmptyStays(d: State, c: Call, s: RSymbol)
    requires Custody(d) && Admissible(d, c) && s in d.pools && d.pools[s].units == 0
    requires !(c.AddCall? && c.s == s)
    ensures s in Step(d, c).pools && Step(d, c).pools[s] == d.pools[s] == SwapPool(0, 0, 0)
  {
    assert SymbolHeld(d, s);
    if c.RemoveCall? && c.s == s {
      RemoveKeeps(d, c.who, s, c.rm, c.swapUnits, c.minFis, c.minRtoken, c.inputIsFis, c.payable);
      if RemoveLiquidity(d, c.who, s, c.rm, c.swapUnits, c.minFis, c.minRtoken, c.inputIsFis, c.payable).1.None? {
        RemovalConserves(d.pools[s], c.rm, c.swapUnits, c.inputIsFis);
      }
    } else if c.SwapCall? && c.s == s {
      SwapKeeps(d, c.who, s, c.input, c.minOut, c.inputIsFis, c.payable);
    } else {
      OtherPoolsSame(d, c, s);
    }
  }

  lemma StepDeeper(d: State, c: Call, s: RSymbol)
    requires Custody(d) && Admissible(d, c) && s in d.pools && Steady(d, s, c)
    ensures s in Step(d, c).pools && Deeper(d.pools[s], Step(d, c).pools[s])
  {
    assert SymbolHeld(d, s);
    if d.pools[s].units == 0 {
      EmptyStays(d, c, s);
    } else if c.FisCall? || c.s != s {
      OtherPoolsSame(d, c, s);
    } else {
      match c {
        case SwapCall(who, _, input, minOut, inputIsFis, payable) =>
          SwapDeeper(d, who, s, input, minOut, inputIsFis, payable);
        case AddCall(who, _, r, f, allowed, payable) => AddDeeper(d, who, s, r, f, allowed, payable);
        case RemoveCall(who, _, rm, su, mf, mr, isFis, payable) =>
          RemoveKeeps(d, who, s, rm, su, mf, mr, isFis, payable);
          if RemoveLiquidity(d, who, s, rm, su, mf, mr, isFis, payable).1.None? {
            RemovalDeeper(d.pools[s], rm, su, isFis);
          }
        case _ => OtherPoolsSame(d, c, s);
      }
    }
  }

  predicate SteadyRun(d: State, s: RSymbol, calls: seq<Call>)
    decreases |calls|
  {
    calls != [] ==> Steady(d, s, calls[0]) && SteadyRun(Step(d, calls[0]), s, calls[1..])
  }

  lemma {:induction false} EmptyForever(d: State, s: RSymbol, calls: seq<Call>)
    requires Custody(d) && AdmissibleRun(d, calls) && SteadyRun(d, s, calls) && s in d.pools && d.pools[s].units == 0
    ensures s in Run(d, calls).pools && Run(d, calls).pools[s] == d.pools[s]
    decreases |calls|
  {
    hide Step, Custody, Admissible;
    if calls != [] {
      StepKeeps(d, calls[0]);
      EmptyStays(d, calls[0], s);
      EmptyForever(Step(d, calls[0]), s, calls[1..]);
    }
  }

  lemma EmptyIsDeeper(p: SwapPool)
    ensures Deeper(p, SwapPool(0, 0, 0))
  {
    hide DeeperBy;
    DeeperIs(p.fis, p.rtoken, p.units, 0, 0, 0);
  }

  lemma EmptyPool(d: State, s: RSymbol)
    requires Custody(d) && s in d.pools && d.pools[s].units == 0
    ensures d.pools[s] == SwapPool(0, 0, 0)
  {
    assert SymbolHeld(d, s);
  }

  /** F*R/P^2 never falls over any run of swaps, removals and proportional adds, mixed with any calls
      on other pools and on the tokens; a run may empty the pool. */
  lemma {:induction false} DepthInRuns(d: State, s: RSymbol, calls: seq<Call>)
    requires Custody(d) && AdmissibleRun(d, calls) && SteadyRun(d, s, calls) && s in d.pools
    ensures s in Run(d, calls).pools && Deeper(d.pools[s], Run(d, calls).pools[s])
    decreases |calls|
  {
    hide Step, Custody, Admissible, Deeper, Steady;
    if calls == [] {
      SameDepth(d.pools[s]);
    } else {
      var d' := Step(d, calls[0]);
      StepKeeps(d, calls[0]);
      StepDeeper(d, calls[0], s);
      if d'.pools[s].units == 0 {
        EmptyPool(d', s);
        EmptyForever(d', s, calls[1..]);
        EmptyIsDeeper(d.pools[s]);
      } else {
        DepthInRuns(d', s, calls[1..]);
        DeeperChain(d.pools[s], d'.pools[s], Run(d', calls[1..]).pools[s]);
      }
    }
  }

  lemma SameDepth(p: SwapPool)
    ensures Deeper(p, p)
  {
  }
}
