/** rdex/swap as the pallet runs it: storage maps updated call by call. */
module DexPallet {
  import opened Arithmetic
  import opened Primitives
  import opened SwapMath
  import opened Tokens
  import opened Dex
  import opened DexCustody

  /** What every call keeps: custody of the reserves and of the LP units. */
  ghost predicate Kept(d: State, who: Account, d': State) { Custody(d) && who != MODULE ==> Custody(d') }

  lemma CallKeeps(d: State, c: Call)
    requires c.SwapCall? || c.AddCall? || c.RemoveCall? || c.CreateCall?
    ensures Kept(d, c.who, Step(d, c))
  {
    hide Custody, Step;
    if Custody(d) && c.who != MODULE {
      StepKeeps(d, c);
    }
  }

  class RDexSwap {
    var pools: map<RSymbol, SwapPool>
    var fis: Bank
    var rtokens: map<RSymbol, Bank>
    var lps: map<RSymbol, Bank>

    function View(): State
      reads this
    {
      State(pools, fis, rtokens, lps)
    }

    constructor (fis: Bank, rtokens: map<RSymbol, Bank>)
      ensures View() == State(map[], fis, rtokens, map[])
    {
      this.pools, this.fis, this.rtokens, this.lps := map[], fis, rtokens, map[];
    }

    function RtokenBank(s: RSymbol): Bank
      reads this
    {
      if s in rtokens then rtokens[s] else EMPTY_BANK
    }

    function ProviderBank(s: RSymbol): Bank
      reads this
    {
      if s in lps then lps[s] else EMPTY_BANK
    }

    /** T::Currency::transfer */
    method MoveFis(from: Account, to: Account, v: u128, payable: bool) returns (ok: bool)
      modifies this`fis
      ensures match Pay(old(fis), from, to, v, payable)
              case Moved(b) => ok && fis == b
              case Failed(_) => !ok && fis == old(fis)
    {
      match Pay(fis, from, to, v, payable) {
        case Moved(b) => fis := b; ok := true;
        case Failed(_) => ok := false;
      }
    }

    /** T::RCurrency::transfer */
    method MoveRtoken(s: RSymbol, from: Account, to: Account, v: u128) returns (ok: bool)
      modifies this`rtokens
      ensures match Transfer(old(RtokenBank(s)), from, to, v)
              case Moved(b) => ok && rtokens == old(rtokens)[s := b]
              case Failed(_) => !ok && rtokens == old(rtokens)
    {
      match Transfer(RtokenBank(s), from, to, v) {
        case Moved(b) => rtokens := rtokens[s := b]; ok := true;
        case Failed(_) => ok := false;
      }
    }

    method SwapTokens(who: Account, s: RSymbol, input: u128, minOut: u128, inputIsFis: bool, payable: bool)
      returns (error: Option<SwapError>)
      modifies this
      ensures (View(), error) == Swap(old(View()), who, s, input, minOut, inputIsFis, payable)
      ensures Kept(old(View()), who, View())
    {
      hide Kept;
      CallKeeps(View(), SwapCall(who, s, input, minOut, inputIsFis, payable));
      if s !in pools { return Some(PoolNotExist); }
      var pool := pools[s];
      if input == 0 || minOut == 0 { return Some(AmountZero); }
      var result := CalSwapResult(pool.fis, pool.rtoken, input, inputIsFis).0;
      if result == 0 { return Some(SwapAmountTooFew); }
      if result < minOut { return Some(LessThanMinOutAmount); }
      if inputIsFis {
        if Free(fis, who) <= input { return Some(UserFisAmountNotEnough); }
        if result >= pool.rtoken { return Some(PoolRTokenBalanceNotEnough); }
        var ok := MoveFis(who, MODULE, input, payable);
        if !ok { return Some(TransferFailed); }
        ok := MoveRtoken(s, MODULE, who, result);
        if !ok { return Some(TransferFailed); }
        pool := pool.(fis := SatAdd(pool.fis, input));
        pool := pool.(rtoken := SatSub(pool.rtoken, result));
      } else {
        if Free(RtokenBank(s), who) < input { return Some(UserRTokenAmountNotEnough); }
        if result >= pool.fis { return Some(PoolFisBalanceNotEnough); }
        var ok := MoveFis(MODULE, who, result, payable);
        if !ok { return Some(TransferFailed); }
        ok := MoveRtoken(s, who, MODULE, input);
        if !ok { return Some(TransferFailed); }
        pool := pool.(rtoken := SatAdd(pool.rtoken, input));
        pool := pool.(fis := SatSub(pool.fis, result));
      }
      pools := pools[s := pool];
      return None;
    }

    /** The transfers, the LP mint and the pool write shared by adding and creating. */
    method FundPool(who: Account, s: RSymbol, rtokenAmount: u128, fisAmount: u128, units: u128, pool: SwapPool,
                    payable: bool)
      returns (error: Option<SwapError>)
      modifies this
      ensures (View(), error) == Fund(old(View()), who, s, rtokenAmount, fisAmount, units, pool, payable)
    {
      if fisAmount > 0 {
        var ok := MoveFis(who, MODULE, fisAmount, payable);
        if !ok { return Some(TransferFailed); }
      }
      var moved := MoveRtoken(s, who, MODULE, rtokenAmount);
      if !moved { return Some(TransferFailed); }
      match Mint(ProviderBank(s), who, units) {
        case Failed(_) => return Some(TransferFailed);
        case Moved(lp) => lps := lps[s := lp];
      }
      pools := pools[s := pool];
      return None;
    }

    method AddToPool(who: Account, s: RSymbol, rtokenAmount: u128, fisAmount: u128, allowed: bool, payable: bool)
      returns (error: Option<SwapError>)
      modifies this
      ensures (View(), error) == AddLiquidity(old(View()), who, s, rtokenAmount, fisAmount, allowed, payable)
      ensures Kept(old(View()), who, View())
    {
      hide Kept;
      CallKeeps(View(), AddCall(who, s, rtokenAmount, fisAmount, allowed, payable));
      if s !in pools { return Some(PoolNotExist); }
      var pool := pools[s];
      if !allowed { return Some(AddLpNotAllowed); }
      if fisAmount == 0 && rtokenAmount == 0 { return Some(AmountAllZero); }
      if Free(RtokenBank(s), who) < rtokenAmount { return Some(UserRTokenAmountNotEnough); }
      if Free(fis, who) <= fisAmount { return Some(UserFisAmountNotEnough); }
      var (total, add) := CalPoolUnit(pool.units, pool.fis, pool.rtoken, fisAmount, rtokenAmount);
      if add == 0 { return Some(AddLpUnitIsZero); }
      pool := SwapPool(SatAdd(pool.fis, fisAmount), SatAdd(pool.rtoken, rtokenAmount), total);
      error := FundPool(who, s, rtokenAmount, fisAmount, add, pool, payable);
    }

    method Create(who: Account, s: RSymbol, rtokenAmount: u128, fisAmount: u128, payable: bool)
      returns (error: Option<SwapError>)
      modifies this
      ensures (View(), error) == CreatePool(old(View()), who, s, rtokenAmount, fisAmount, payable)
      ensures Kept(old(View()), who, View())
    {
      hide Kept;
      CallKeeps(View(), CreateCall(who, s, rtokenAmount, fisAmount, payable));
      if s in pools { return Some(PoolAlreadyExist); }
      if fisAmount == 0 || rtokenAmount == 0 { return Some(AmountZero); }
      if Free(RtokenBank(s), who) < rtokenAmount { return Some(UserRTokenAmountNotEnough); }
      if Free(fis, who) <= fisAmount { return Some(UserFisAmountNotEnough); }
      var (total, add) := CalPoolUnit(0, 0, 0, fisAmount, rtokenAmount);
      error := FundPool(who, s, rtokenAmount, fisAmount, add, SwapPool(fisAmount, rtokenAmount, total), payable);
    }

    method Remove(who: Account, s: RSymbol, rm: u128, swapUnits: u128, minFis: u128, minRtoken: u128, inputIsFis: bool,
                  payable: bool)
      returns (error: Option<SwapError>)
      modifies this
      ensures (View(), error) == RemoveLiquidity(old(View()), who, s, rm, swapUnits, minFis, minRtoken, inputIsFis,
                                                 payable)
      ensures Kept(old(View()), who, View())
    {
      hide Kept;
      CallKeeps(View(), RemoveCall(who, s, rm, swapUnits, minFis, minRtoken, inputIsFis, payable));
      if s !in pools { return Some(PoolNotExist); }
      var pool := pools[s];
      if rm == 0 || rm > Free(ProviderBank(s), who) || rm < swapUnits { return Some(UnitAmountImproper); }
      var plan := PlanRemoval(pool, rm, swapUnits, inputIsFis);
      if plan.Refused? { return Some(plan.error); }
      pool := plan.pool;
      if plan.fisOut < minFis || plan.rtokenOut < minRtoken { return Some(LessThanMinOutAmount); }
      if (pool.fis == 0) != (pool.rtoken == 0) { return Some(PoolOneSideZero); }
      if Free(fis, MODULE) < plan.fisOut { return Some(PoolFisBalanceNotEnough); }
      if Free(RtokenBank(s), MODULE) < plan.rtokenOut { return Some(PoolRTokenBalanceNotEnough); }
      error := PayProvider(who, s, rm, plan.fisOut, plan.rtokenOut, pool, payable);
    }

    /** The amounts of a removal and the pool it leaves, updated step by step. */
    method PlanRemoval(before: SwapPool, rm: u128, swapUnits: u128, inputIsFis: bool) returns (plan: Removal)
      ensures plan == RemovalOf(before, rm, swapUnits, inputIsFis)
    {
      var (fisOut, rtokenOut, input) := CalRemoveResult(before.units, rm, swapUnits, before.fis, before.rtoken,
                                                        inputIsFis);
      var pool := SwapPool(SatSub(before.fis, fisOut), SatSub(before.rtoken, rtokenOut), SatSub(before.units, rm));
      if input > 0 {
        var out := CalSwapResult(pool.fis, pool.rtoken, input, inputIsFis).0;
        if out == 0 { return Refused(SwapAmountTooFew); }
        if inputIsFis {
          if out >= pool.rtoken { return Refused(PoolRTokenBalanceNotEnough); }
          pool := pool.(fis := SatAdd(pool.fis, input), rtoken := SatSub(pool.rtoken, out));
          fisOut, rtokenOut := SatSub(fisOut, input), SatAdd(rtokenOut, out);
        } else {
          if out >= pool.fis { return Refused(PoolFisBalanceNotEnough); }
          pool := pool.(rtoken := SatAdd(pool.rtoken, input), fis := SatSub(pool.fis, out));
          rtokenOut, fisOut := SatSub(rtokenOut, input), SatAdd(fisOut, out);
        }
      }
      return Removal(pool, fisOut, rtokenOut);
    }

    /** The payouts, the LP burn and the pool write that end a removal. */
    method PayProvider(who: Account, s: RSymbol, rm: u128, fisOut: u128, rtokenOut: u128, pool: SwapPool, payable: bool)
      returns (error: Option<SwapError>)
      modifies this
      ensures (View(), error) == PayOut(old(View()), who, s, rm, fisOut, rtokenOut, pool, payable)
    {
      if fisOut > 0 {
        var ok := MoveFis(MODULE, who, fisOut, payable);
        if !ok { return Some(TransferFailed); }
      }
      var moved := MoveRtoken(s, MODULE, who, rtokenOut);
      if !moved { return Some(TransferFailed); }
      match Burn(ProviderBank(s), who, rm) {
        case Failed(_) => return Some(TransferFailed);
        case Moved(lp) => lps := lps[s := lp];
      }
      pools := pools[s := pool];
      return None;
    }
  }
}
