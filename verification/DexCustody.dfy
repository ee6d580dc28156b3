/** Custody: whatever sequence of calls ran, the module account holds every
    reserve the pools record, and pool units are the LP issuance. */
module DexCustody {
  import opened Arithmetic
  import opened Primitives
  import opened Sums
  import opened SwapMath
  import opened Tokens
  import opened Dex

  function FisReserves(pools: map<RSymbol, SwapPool>): map<RSymbol, nat> { map s | s in pools :: pools[s].fis }

  ghost predicate FisHeld(d: State) { Sum(FisReserves(d.pools)) <= Free(d.fis, MODULE) }

  predicate Balanced(p: SwapPool) { (p.fis == 0 <==> p.units == 0) && (p.rtoken == 0 <==> p.units == 0) }

  ghost predicate SymbolHeld(d: State, s: RSymbol)
  {
    && Holdings(RBank(d, s)) <= U128_MAX
    && (s !in d.pools ==> LpBank(d, s).issuance == 0)
    && (s in d.pools ==>
         && d.pools[s].rtoken <= Free(RBank(d, s), MODULE)
         && d.pools[s].units == LpBank(d, s).issuance
         && Balanced(d.pools[s]))
  }

  ghost predicate Custody(d: State) { FisHeld(d) && forall s: RSymbol :: SymbolHeld(d, s) }

  lemma ReserveHeld(d: State, s: RSymbol)
    requires FisHeld(d) && s in d.pools
    ensures d.pools[s].fis <= Free(d.fis, MODULE)
  {
    SumMember(FisReserves(d.pools), s);
  }

  function PoolOrEmpty(d: State, s: RSymbol): SwapPool { if s in d.pools then d.pools[s] else SwapPool(0, 0, 0) }

  lemma FisHeldAfter(d: State, d': State, s: RSymbol, p: SwapPool)
    requires FisHeld(d) && d'.pools == d.pools[s := p]
    requires Free(d'.fis, MODULE) + PoolOrEmpty(d, s).fis >= Free(d.fis, MODULE) + p.fis
    ensures FisHeld(d')
  {
    SumInsert(FisReserves(d.pools), s, p.fis);
    assert FisReserves(d'.pools) == FisReserves(d.pools)[s := p.fis];
  }

  /** Custody after a call that touched only symbol s and left pool p behind. */
  lemma CustodyAfter(d: State, d': State, s: RSymbol, p: SwapPool)
    requires Custody(d)
    requires d'.pools == d.pools[s := p]
    requires d'.rtokens == d.rtokens[s := RBank(d', s)]
    requires d'.lps == d.lps || d'.lps == d.lps[s := LpBank(d', s)]
    requires Free(d'.fis, MODULE) + PoolOrEmpty(d, s).fis >= Free(d.fis, MODULE) + p.fis
    requires Holdings(RBank(d', s)) <= U128_MAX
    requires p.rtoken <= Free(RBank(d', s), MODULE)
    requires p.units == LpBank(d', s).issuance
    requires Balanced(p)
    ensures Custody(d')
  {
    FisHeldAfter(d, d', s, p);
    forall t: RSymbol
      ensures SymbolHeld(d', t)
    {
      assert SymbolHeld(d, t);
      if t != s {
        assert RBank(d', t) == RBank(d, t) && LpBank(d', t) == LpBank(d, t);
      }
    }
  }

  /** Custody after a call that stored no pool and paid nothing out of the module account. */
  lemma CustodyUntouched(d: State, d': State, s: RSymbol)
    requires Custody(d)
    requires d'.pools == d.pools
    requires d'.rtokens == d.rtokens || d'.rtokens == d.rtokens[s := RBank(d', s)]
    requires d'.lps == d.lps || d'.lps == d.lps[s := LpBank(d', s)]
    requires Free(d'.fis, MODULE) >= Free(d.fis, MODULE)
    requires Free(RBank(d', s), MODULE) >= Free(RBank(d, s), MODULE)
    requires Holdings(RBank(d', s)) <= U128_MAX
    requires LpBank(d', s).issuance == LpBank(d, s).issuance
    ensures Custody(d')
  {
    forall t: RSymbol
      ensures SymbolHeld(d', t)
    {
      assert SymbolHeld(d, t);
      if t != s {
        assert RBank(d', t) == RBank(d, t) && LpBank(d', t) == LpBank(d, t);
      }
    }
  }

  // ----- swap

  lemma FisInKeeps(d: State, who: Account, s: RSymbol, input: u128, result: u128, payable: bool)
    requires Custody(d) && who != MODULE && s in d.pools && d.pools[s].units > 0 && result > 0
    ensures var (d', e) := SwapFisIn(d, who, s, input, result, payable);
            && Custody(d')
            && (e.Some? ==> d' == d)
            && (e.None? ==> Traded(d, d', s, input, 0, 0, result))
  {
    assert SymbolHeld(d, s);
    var (d', e) := SwapFisIn(d, who, s, input, result, payable);
    ReserveHeld(d, s);
    TransferFailsOnlyShort(RBank(d, s), MODULE, who, result);
    TransferConserves(d.fis, who, MODULE, input);
    TransferConserves(RBank(d, s), MODULE, who, result);
    if e.None? {
      CustodyAfter(d, d', s, d'.pools[s]);
    }
  }

  /** The pool of s moved by exactly these amounts, and kept its units. */
  predicate Traded(d: State, d': State, s: RSymbol, fisIn: nat, fisOut: nat, rtokenIn: nat, rtokenOut: nat)
  {
    && s in d.pools && s in d'.pools
    && d'.pools[s].fis + fisOut == d.pools[s].fis + fisIn
    && d'.pools[s].rtoken + rtokenOut == d.pools[s].rtoken + rtokenIn
    && d'.pools[s].units == d.pools[s].units
  }

  lemma RtokenInKeeps(d: State, who: Account, s: RSymbol, input: u128, result: u128, payable: bool)
    requires Custody(d) && who != MODULE && s in d.pools && d.pools[s].units > 0 && result > 0
    ensures var (d', e) := SwapRtokenIn(d, who, s, input, result, payable);
            && Custody(d')
            && (e.Some? ==> d' == d)
            && (e.None? ==> Traded(d, d', s, 0, result, input, 0))
  {
    assert SymbolHeld(d, s);
    var (d', e) := SwapRtokenIn(d, who, s, input, result, payable);
    ReserveHeld(d, s);
    TransferFailsOnlyShort(RBank(d, s), who, MODULE, input);
    TransferConserves(d.fis, MODULE, who, result);
    TransferConserves(RBank(d, s), who, MODULE, input);
    if e.None? {
      CustodyAfter(d, d', s, d'.pools[s]);
    }
  }

  /** A swap keeps custody; when it fails, nothing at all has moved. */
  lemma SwapKeeps(d: State, who: Account, s: RSymbol, input: u128, minOut: u128, inputIsFis: bool, payable: bool)
    requires Custody(d) && who != MODULE
    ensures var (d', e) := Swap(d, who, s, input, minOut, inputIsFis, payable);
            && Custody(d')
            && (e.Some? ==> d' == d)
            && (e.None? ==> s in d.pools && input > 0)
            && (e.None? ==>
                  var out := CalSwapResult(d.pools[s].fis, d.pools[s].rtoken, input, inputIsFis).0;
                  if inputIsFis then Traded(d, d', s, input, 0, 0, out) else Traded(d, d', s, 0, out, input, 0))
  {
    if s in d.pools {
      assert SymbolHeld(d, s);
      var pool := d.pools[s];
      var result := CalSwapResult(pool.fis, pool.rtoken, input, inputIsFis).0;
      if input > 0 && result > 0 {
        if inputIsFis {
          FisInKeeps(d, who, s, input, result, payable);
        } else {
          RtokenInKeeps(d, who, s, input, result, payable);
        }
      }
    }
  }

  // ----- liquidity

  /** The units recorded in the pool are the issuance after the mint, also when both are clamped. */
  lemma UnitsAreIssuance(p: SwapPool, f: u128, r: u128)
    requires Balanced(p)
    ensures var (total, add) := CalPoolUnit(p.units, p.fis, p.rtoken, f, r);
            add > 0 ==> total == SatAdd(p.units, add) && total > 0 && p.fis + f > 0 && p.rtoken + r > 0
  {
    if p.units > 0 && (f > 0 || r > 0) {
      PoolUnitExact(p.units, p.fis, p.rtoken, f, r);
    }
  }

  /** The pool of s grew by exactly (f, r) and now records `units`. */
  predicate Funded(d: State, d': State, s: RSymbol, f: nat, r: nat, units: nat)
  {
    && s in d'.pools
    && d'.pools[s].fis == PoolOrEmpty(d, s).fis + f
    && d'.pools[s].rtoken == PoolOrEmpty(d, s).rtoken + r
    && d'.pools[s].units == units
  }

  lemma FundKeeps(d: State, who: Account, s: RSymbol, r: u128, f: u128, units: u128, pool: SwapPool, payable: bool)
    requires Custody(d) && who != MODULE && r <= Free(RBank(d, s), who)
    requires pool.units == SatAdd(PoolOrEmpty(d, s).units, units) && pool.units > 0
    requires pool.fis == SatAdd(PoolOrEmpty(d, s).fis, f) > 0
    requires pool.rtoken == SatAdd(PoolOrEmpty(d, s).rtoken, r) > 0
    ensures var (d', e) := Fund(d, who, s, r, f, units, pool, payable);
            && Custody(d')
            && (e.Some? ==> d'.pools == d.pools && d'.lps == d.lps)
            && (e.None? ==> Funded(d, d', s, f, r, pool.units))
  {
    assert SymbolHeld(d, s);
    var (d', e) := Fund(d, who, s, r, f, units, pool, payable);
    if s in d.pools {
      ReserveHeld(d, s);
    }
    TransferConserves(d.fis, who, MODULE, f);
    TransferFailsOnlyShort(RBank(d, s), who, MODULE, r);
    TransferConserves(RBank(d, s), who, MODULE, r);
    MintAdds(LpBank(d, s), who, units);
    if e.None? {
      CustodyAfter(d, d', s, pool);
    } else {
      CustodyUntouched(d, d', s);
    }
  }

  /** An add keeps custody; when it fails, no pool and no LP balance has changed. */
  lemma AddKeeps(d: State, who: Account, s: RSymbol, r: u128, f: u128, allowed: bool, payable: bool)
    requires Custody(d) && who != MODULE
    ensures var (d', e) := AddLiquidity(d, who, s, r, f, allowed, payable);
            && Custody(d')
            && (e.Some? ==> d'.pools == d.pools && d'.lps == d.lps)
            && (e.None? ==> s in d.pools && (f > 0 || r > 0))
            && (e.None? ==>
                  Funded(d, d', s, f, r, CalPoolUnit(d.pools[s].units, d.pools[s].fis, d.pools[s].rtoken, f, r).0))
  {
    if s in d.pools {
      assert SymbolHeld(d, s);
      var pool := d.pools[s];
      var (total, add) := CalPoolUnit(pool.units, pool.fis, pool.rtoken, f, r);
      UnitsAreIssuance(pool, f, r);
      if add > 0 && r <= Free(RBank(d, s), who) {
        FundKeeps(d, who, s, r, f, add, SwapPool(SatAdd(pool.fis, f), SatAdd(pool.rtoken, r), total), payable);
      }
    }
  }

  lemma CreateKeeps(d: State, who: Account, s: RSymbol, r: u128, f: u128, payable: bool)
    requires Custody(d) && who != MODULE
    ensures var (d', e) := CreatePool(d, who, s, r, f, payable);
            Custody(d') && (e.Some? ==> d'.pools == d.pools && d'.lps == d.lps)
  {
    assert SymbolHeld(d, s);
    if s !in d.pools && f > 0 && r > 0 && r <= Free(RBank(d, s), who) {
      FundKeeps(d, who, s, r, f, f, SwapPool(f, r, f), payable);
    }
  }

  lemma RemoveResultExact(p: SwapPool, rm: u128, swapUnits: u128, inputIsFis: bool)
    requires p.units > 0 && rm > 0
    ensures var useRm := Min(rm, p.units);
            var (f, r, input) := CalRemoveResult(p.units, rm, swapUnits, p.fis, p.rtoken, inputIsFis);
            && f == Redeem(useRm, p.units, p.fis) <= p.fis
            && r == Redeem(useRm, p.units, p.rtoken) <= p.rtoken
            && input == SafeToU128(Redeem(swapUnits, p.units, if inputIsFis then p.fis else p.rtoken))
  {
    hide Mul512, Redeem, Floor;
    Mul512IsProduct();
    var useRm: u128 := Min(rm, p.units);
    RedeemIs(useRm, p.units, p.fis);
    RedeemIs(useRm, p.units, p.rtoken);
    RedeemIs(swapUnits, p.units, if inputIsFis then p.fis else p.rtoken);
    ThreeFactors(useRm, p.fis, 0);
    ThreeFactors(useRm, p.rtoken, 0);
    ThreeFactors(swapUnits, if inputIsFis then p.fis else p.rtoken, 0);
    ShareKept(useRm, p.units, p.fis);
    ShareKept(useRm, p.units, p.rtoken);
  }

  /** The share that leaves the pool before any embedded swap. */
  lemma ShareTaken(p: SwapPool, rm: u128, swapUnits: u128, inputIsFis: bool)
    requires Balanced(p) && rm >= swapUnits
    ensures var (f, r, input) := CalRemoveResult(p.units, rm, swapUnits, p.fis, p.rtoken, inputIsFis);
            && f <= p.fis && r <= p.rtoken
            && Balanced(SwapPool(p.fis - f, p.rtoken - r, SatSub(p.units, rm)))
            && (rm < p.units ==> input <= if inputIsFis then f else r)
            && (rm >= p.units ==> p.fis - f == 0)
  {
    if p.units > 0 && rm > 0 {
      RemoveResultExact(p, rm, swapUnits, inputIsFis);
      ShareKept(Min(rm, p.units), p.units, p.fis);
      ShareKept(Min(rm, p.units), p.units, p.rtoken);
      if rm < p.units {
        var side := if inputIsFis then p.fis else p.rtoken;
        RedeemIs(swapUnits, p.units, side);
        RedeemIs(rm, p.units, side);
        MulMono(swapUnits, rm, side);
        FloorMono(swapUnits * side, rm * side, p.units);
      }
    }
  }

  /** The embedded swap moves value between the two sides and loses none. */
  lemma SwapBackConserves(left: SwapPool, f: u128, r: u128, input: u128, inputIsFis: bool)
    requires left.fis + f <= U128_MAX && left.rtoken + r <= U128_MAX
    requires Balanced(left) && (left.units > 0 ==> input <= if inputIsFis then f else r)
    requires SwapBack(left, f, r, input, inputIsFis).Removal?
    ensures var m := SwapBack(left, f, r, input, inputIsFis);
            && m.pool.units == left.units && Balanced(m.pool)
            && m.pool.fis + m.fisOut == left.fis + f
            && m.pool.rtoken + m.rtokenOut == left.rtoken + r
            && (input == 0 ==> m.pool == left)
    ensures input > 0 ==>
              var m, out := SwapBack(left, f, r, input, inputIsFis),
                CalSwapResult(left.fis, left.rtoken, input, inputIsFis).0;
              && left.fis > 0 && left.rtoken > 0
              && (inputIsFis ==> m.pool.fis == left.fis + input && m.pool.rtoken + out == left.rtoken)
              && (!inputIsFis ==> m.pool.rtoken == left.rtoken + input && m.pool.fis + out == left.fis)
  {
  }

  /** What goes to the user is exactly what leaves the pool, with or without the embedded swap. */
  lemma RemovalConserves(p: SwapPool, rm: u128, swapUnits: u128, inputIsFis: bool)
    requires Balanced(p) && rm >= swapUnits
    requires RemovalOf(p, rm, swapUnits, inputIsFis).Removal?
    ensures var m := RemovalOf(p, rm, swapUnits, inputIsFis);
            && m.pool.units == SatSub(p.units, rm)
            && m.pool.fis + m.fisOut == p.fis
            && m.pool.rtoken + m.rtokenOut == p.rtoken
            && Balanced(m.pool)
  {
    ShareTaken(p, rm, swapUnits, inputIsFis);
    var (f, r, input) := CalRemoveResult(p.units, rm, swapUnits, p.fis, p.rtoken, inputIsFis);
    SwapBackConserves(SwapPool(p.fis - f, p.rtoken - r, SatSub(p.units, rm)), f, r, input, inputIsFis);
  }

  lemma PayOutKeeps(d: State, who: Account, s: RSymbol, rm: u128, fisOut: u128, rtokenOut: u128, pool: SwapPool,
                    payable: bool)
    requires Custody(d) && who != MODULE && s in d.pools && rm <= Free(LpBank(d, s), who)
    requires rtokenOut <= Free(RBank(d, s), MODULE)
    requires pool.units == SatSub(d.pools[s].units, rm) && Balanced(pool)
    requires pool.fis + fisOut == d.pools[s].fis && pool.rtoken + rtokenOut == d.pools[s].rtoken
    ensures var (d', e) := PayOut(d, who, s, rm, fisOut, rtokenOut, pool, payable);
            && Custody(d')
            && (e.Some? ==> d' == d)
            && (e.None? ==> d'.pools == d.pools[s := pool])
  {
    assert SymbolHeld(d, s);
    var (d', e) := PayOut(d, who, s, rm, fisOut, rtokenOut, pool, payable);
    TransferConserves(d.fis, MODULE, who, fisOut);
    TransferFailsOnlyShort(RBank(d, s), MODULE, who, rtokenOut);
    TransferConserves(RBank(d, s), MODULE, who, rtokenOut);
    BurnSubtracts(LpBank(d, s), who, rm);
    if e.None? {
      CustodyAfter(d, d', s, pool);
    }
  }

  /** A removal keeps custody; when it fails, nothing at all has moved. */
  lemma RemoveKeeps(d: State, who: Account, s: RSymbol, rm: u128, swapUnits: u128, minFis: u128, minRtoken: u128,
                    inputIsFis: bool, payable: bool)
    requires Custody(d) && who != MODULE
    ensures var (d', e) := RemoveLiquidity(d, who, s, rm, swapUnits, minFis, minRtoken, inputIsFis, payable);
            && Custody(d')
            && (e.Some? ==> d' == d)
            && (e.None? ==> s in d.pools && 0 < rm && swapUnits <= rm)
            && (e.None? ==> RemovalOf(d.pools[s], rm, swapUnits, inputIsFis).Removal?)
            && (e.None? ==> d'.pools == d.pools[s := RemovalOf(d.pools[s], rm, swapUnits, inputIsFis).pool])
  {
    assert SymbolHeld(d, s);
    if s in d.pools && 0 < rm <= Free(LpBank(d, s), who) && rm >= swapUnits {
      var m := RemovalOf(d.pools[s], rm, swapUnits, inputIsFis);
      if m.Removal? && m.rtokenOut <= Free(RBank(d, s), MODULE) {
        RemovalConserves(d.pools[s], rm, swapUnits, inputIsFis);
        hide RemovalOf, PayOut;
        PayOutKeeps(d, who, s, rm, m.fisOut, m.rtokenOut, m.pool, payable);
      }
    }
  }

  // ----- ordinary token calls

  lemma BankCallKeeps(b: Bank, call: BankCall, who: Account)
    requires DebitedBy(call, who) && who != MODULE
    ensures Free(BankStep(b, call), MODULE) >= Free(b, MODULE)
    ensures call.TransferCall? ==>
              Holdings(BankStep(b, call)) == Holdings(b) && BankStep(b, call).issuance == b.issuance
    ensures call.MintCall? ==> Holdings(BankStep(b, call)) <= Holdings(b) + call.v
    ensures call.BurnCall? ==> Holdings(BankStep(b, call)) <= Holdings(b)
  {
    match call {
      case TransferCall(from, to, v) => TransferConserves(b, from, to, v);
      case MintCall(to, v) => MintAdds(b, to, v);
      case BurnCall(from, v) => BurnSubtracts(b, from, v);
    }
  }

  lemma StepKeeps(d: State, c: Call)
    requires Custody(d) && Admissible(d, c)
    ensures Custody(Step(d, c))
  {
    match c {
      case SwapCall(who, s, input, minOut, inputIsFis, payable) =>
          SwapKeeps(d, who, s, input, minOut, inputIsFis, payable);
      case AddCall(who, s, r, f, allowed, payable) => AddKeeps(d, who, s, r, f, allowed, payable);
      case RemoveCall(who, s, rm, su, mf, mr, isFis, payable) => RemoveKeeps(d, who, s, rm, su, mf, mr, isFis, payable);
      case CreateCall(who, s, r, f, payable) => CreateKeeps(d, who, s, r, f, payable);
      case FisCall(who, call) =>
        assert SymbolHeld(d, RFIS);
        BankCallKeeps(d.fis, call, who);
        CustodyUntouched(d, Step(d, c), RFIS);
      case RtokenCall(who, s, call) =>
        assert SymbolHeld(d, s);
        BankCallKeeps(RBank(d, s), call, who);
        CustodyUntouched(d, Step(d, c), s);
      case LpTransferCall(who, s, to, v) =>
        assert SymbolHeld(d, s);
        BankCallKeeps(LpBank(d, s), TransferCall(who, to, v), who);
        CustodyUntouched(d, Step(d, c), s);
    }
  }

  /** Custody in every state of every admissible run. */
  lemma {:induction false} CustodyInRuns(d: State, calls: seq<Call>)
    requires Custody(d) && AdmissibleRun(d, calls)
    ensures Custody(Run(d, calls))
    decreases |calls|
  {
    if calls != [] {
      StepKeeps(d, calls[0]);
      CustodyInRuns(Step(d, calls[0]), calls[1..]);
    }
  }

  /** A chain without pools and LP tokens starts in custody. */
  lemma GenesisCustody(fis: Bank, rtokens: map<RSymbol, Bank>)
    requires forall s :: s in rtokens ==> Holdings(rtokens[s]) <= U128_MAX
    ensures Custody(State(map[], fis, rtokens, map[]))
  {
    var d := State(map[], fis, rtokens, map[]);
    assert FisReserves(d.pools) == map[];
    forall s: RSymbol ensures SymbolHeld(d, s) {
      assert Holdings(EMPTY_BANK) == 0;
    }
  }
}
