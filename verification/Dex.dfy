/** rdex/swap: pools, the module account that holds the reserves, and the three
    token ledgers its calls touch. A failing call keeps the writes made before
    the failure, so every function returns the state together with the error. */
module Dex {
  import opened Arithmetic
  import opened Primitives
  import opened SwapMath
  import opened Tokens

  /** The pallet's own account; it never signs. */
  const MODULE: Account := 0

  datatype SwapPool = SwapPool(fis: u128, rtoken: u128, units: u128)

  datatype SwapError =
    | AmountZero | AmountAllZero | PoolAlreadyExist | PoolNotExist | UserRTokenAmountNotEnough
    | UserFisAmountNotEnough | PoolFisBalanceNotEnough | PoolRTokenBalanceNotEnough | UnitAmountImproper
    | SwapAmountTooFew | LessThanMinOutAmount | AddLpUnitIsZero | PoolOneSideZero | AddLpNotAllowed
    | TransferFailed

  datatype State = State(pools: map<RSymbol, SwapPool>, fis: Bank, rtokens: map<RSymbol, Bank>, lps: map<RSymbol, Bank>)

  type Result = (State, Option<SwapError>)

  function RBank(d: State, s: RSymbol): Bank { if s in d.rtokens then d.rtokens[s] else EMPTY_BANK }

  function LpBank(d: State, s: RSymbol): Bank { if s in d.lps then d.lps[s] else EMPTY_BANK }

  /** A native transfer, which may also fail for reasons outside this model. */
  function Pay(b: Bank, from: Account, to: Account, v: u128, payable: bool): Moved
  {
    if payable then Transfer(b, from, to, v) else Failed(InsufficientBalance)
  }

  // ----- the calls

  function Swap(d: State, who: Account, s: RSymbol, input: u128, minOut: u128, inputIsFis: bool, payable: bool): Result
  {
    if s !in d.pools then (d, Some(PoolNotExist))
    else if input == 0 || minOut == 0 then (d, Some(AmountZero))
    else
      var pool := d.pools[s];
      var result := CalSwapResult(pool.fis, pool.rtoken, input, inputIsFis).0;
      if result == 0 then (d, Some(SwapAmountTooFew))
      else if result < minOut then (d, Some(LessThanMinOutAmount))
      else if inputIsFis then SwapFisIn(d, who, s, input, result, payable)
      else SwapRtokenIn(d, who, s, input, result, payable)
  }

  function SwapFisIn(d: State, who: Account, s: RSymbol, input: u128, result: u128, payable: bool): Result
    requires s in d.pools
  {
    var pool := d.pools[s];
    if Free(d.fis, who) <= input then (d, Some(UserFisAmountNotEnough))
    else if result >= pool.rtoken then (d, Some(PoolRTokenBalanceNotEnough))
    else match Pay(d.fis, who, MODULE, input, payable)
      case Failed(_) => (d, Some(TransferFailed))
      case Moved(fis') =>
        match Transfer(RBank(d, s), MODULE, who, result)
        case Failed(_) => (d.(fis := fis'), Some(TransferFailed))
        case Moved(bank') =>
          (d.(fis := fis', rtokens := d.rtokens[s := bank'],
             pools := d.pools[s := pool.(fis := SatAdd(pool.fis, input), rtoken := SatSub(pool.rtoken, result))]), None)
  }

  function SwapRtokenIn(d: State, who: Account, s: RSymbol, input: u128, result: u128, payable: bool): Result
    requires s in d.pools
  {
    var pool := d.pools[s];
    if Free(RBank(d, s), who) < input then (d, Some(UserRTokenAmountNotEnough))
    else if result >= pool.fis then (d, Some(PoolFisBalanceNotEnough))
    else match Pay(d.fis, MODULE, who, result, payable)
      case Failed(_) => (d, Some(TransferFailed))
      case Moved(fis') =>
        match Transfer(RBank(d, s), who, MODULE, input)
        case Failed(_) => (d.(fis := fis'), Some(TransferFailed))
        case Moved(bank') =>
          (d.(fis := fis', rtokens := d.rtokens[s := bank'],
             pools := d.pools[s := pool.(rtoken := SatAdd(pool.rtoken, input), fis := SatSub(pool.fis, result))]), None)
  }

  /** Both deposits, then the LP mint, then `pool` is stored. */
  function Fund(d: State, who: Account, s: RSymbol, rtokenAmount: u128, fisAmount: u128, units: u128, pool: SwapPool,
                payable: bool): Result
  {
    match (if fisAmount == 0 then Moved(d.fis) else Pay(d.fis, who, MODULE, fisAmount, payable))
    case Failed(_) => (d, Some(TransferFailed))
    case Moved(fis') =>
      match Transfer(RBank(d, s), who, MODULE, rtokenAmount)
      case Failed(_) => (d.(fis := fis'), Some(TransferFailed))
      case Moved(bank') =>
        var d' := d.(fis := fis', rtokens := d.rtokens[s := bank']);
        match Mint(LpBank(d, s), who, units)
        case Failed(_) => (d', Some(TransferFailed))
        case Moved(lp') => (d'.(lps := d.lps[s := lp'], pools := d.pools[s := pool]), None)
  }

  function AddLiquidity(d: State, who: Account, s: RSymbol, rtokenAmount: u128, fisAmount: u128, allowed: bool,
                        payable: bool): Result
  {
    if s !in d.pools then (d, Some(PoolNotExist))
    else if !allowed then (d, Some(AddLpNotAllowed))
    else if fisAmount == 0 && rtokenAmount == 0 then (d, Some(AmountAllZero))
    else if Free(RBank(d, s), who) < rtokenAmount then (d, Some(UserRTokenAmountNotEnough))
    else if Free(d.fis, who) <= fisAmount then (d, Some(UserFisAmountNotEnough))
    else
      var pool := d.pools[s];
      var (total, add) := CalPoolUnit(pool.units, pool.fis, pool.rtoken, fisAmount, rtokenAmount);
      if add == 0 then (d, Some(AddLpUnitIsZero))
      else Fund(d, who, s, rtokenAmount, fisAmount, add,
                SwapPool(SatAdd(pool.fis, fisAmount), SatAdd(pool.rtoken, rtokenAmount), total), payable)
  }

  function CreatePool(d: State, who: Account, s: RSymbol, rtokenAmount: u128, fisAmount: u128, payable: bool): Result
  {
    if s in d.pools then (d, Some(PoolAlreadyExist))
    else if fisAmount == 0 || rtokenAmount == 0 then (d, Some(AmountZero))
    else if Free(RBank(d, s), who) < rtokenAmount then (d, Some(UserRTokenAmountNotEnough))
    else if Free(d.fis, who) <= fisAmount then (d, Some(UserFisAmountNotEnough))
    else
      var (total, add) := CalPoolUnit(0, 0, 0, fisAmount, rtokenAmount);
      Fund(d, who, s, rtokenAmount, fisAmount, add, SwapPool(fisAmount, rtokenAmount, total), payable)
  }

  /** What a removal leaves in the pool and what it takes out, before any transfer. */
  datatype Removal = Removal(pool: SwapPool, fisOut: u128, rtokenOut: u128) | Refused(error: SwapError)

  function RemovalOf(pool: SwapPool, rm: u128, swapUnits: u128, inputIsFis: bool): Removal
  {
    var (f, r, input) := CalRemoveResult(pool.units, rm, swapUnits, pool.fis, pool.rtoken, inputIsFis);
    SwapBack(SwapPool(SatSub(pool.fis, f), SatSub(pool.rtoken, r), SatSub(pool.units, rm)), f, r, input, inputIsFis)
  }

  /** The removed share (f, r), with `input` of one side traded against what is left. */
  function SwapBack(left: SwapPool, f: u128, r: u128, input: u128, inputIsFis: bool): Removal
  {
    if input == 0 then Removal(left, f, r)
    else
      var out := CalSwapResult(left.fis, left.rtoken, input, inputIsFis).0;
      if out == 0 then Refused(SwapAmountTooFew)
      else if inputIsFis then
        if out >= left.rtoken then Refused(PoolRTokenBalanceNotEnough)
        else Removal(left.(fis := SatAdd(left.fis, input), rtoken := SatSub(left.rtoken, out)), SatSub(f, input),
                     SatAdd(r, out))
      else
        if out >= left.fis then Refused(PoolFisBalanceNotEnough)
        else Removal(left.(rtoken := SatAdd(left.rtoken, input), fis := SatSub(left.fis, out)), SatAdd(f, out),
                     SatSub(r, input))
  }

  /** Both payouts, then the LP burn, then `pool` is stored. */
  function PayOut(d: State, who: Account, s: RSymbol, rm: u128, fisOut: u128, rtokenOut: u128, pool: SwapPool,
                  payable: bool): Result
  {
    match (if fisOut == 0 then Moved(d.fis) else Pay(d.fis, MODULE, who, fisOut, payable))
    case Failed(_) => (d, Some(TransferFailed))
    case Moved(fis') =>
      match Transfer(RBank(d, s), MODULE, who, rtokenOut)
      case Failed(_) => (d.(fis := fis'), Some(TransferFailed))
      case Moved(bank') =>
        var d' := d.(fis := fis', rtokens := d.rtokens[s := bank']);
        match Burn(LpBank(d, s), who, rm)
        case Failed(_) => (d', Some(TransferFailed))
        case Moved(lp') => (d'.(lps := d.lps[s := lp'], pools := d.pools[s := pool]), None)
  }

  function RemoveLiquidity(d: State, who: Account, s: RSymbol, rm: u128, swapUnits: u128, minFis: u128, minRtoken: u128,
                           inputIsFis: bool, payable: bool): Result
  {
    if s !in d.pools then (d, Some(PoolNotExist))
    else if rm == 0 || rm > Free(LpBank(d, s), who) || rm < swapUnits then (d, Some(UnitAmountImproper))
    else match RemovalOf(d.pools[s], rm, swapUnits, inputIsFis)
      case Refused(e) => (d, Some(e))
      case Removal(pool, fisOut, rtokenOut) =>
        if fisOut < minFis || rtokenOut < minRtoken then (d, Some(LessThanMinOutAmount))
        else if (pool.fis == 0) != (pool.rtoken == 0) then (d, Some(PoolOneSideZero))
        else if Free(d.fis, MODULE) < fisOut then (d, Some(PoolFisBalanceNotEnough))
        else if Free(RBank(d, s), MODULE) < rtokenOut then (d, Some(PoolRTokenBalanceNotEnough))
        else PayOut(d, who, s, rm, fisOut, rtokenOut, pool, payable)
  }

  // ----- runs: the pallet's calls mixed with ordinary use of the three tokens

  datatype Call =
    | SwapCall(who: Account, s: RSymbol, input: u128, minOut: u128, inputIsFis: bool, payable: bool)
    | AddCall(who: Account, s: RSymbol, rtokenAmount: u128, fisAmount: u128, allowed: bool, payable: bool)
    | RemoveCall(who: Account, s: RSymbol, rm: u128, swapUnits: u128, minFis: u128, minRtoken: u128, inputIsFis: bool,
                 payable: bool)
    | CreateCall(who: Account, s: RSymbol, rtokenAmount: u128, fisAmount: u128, payable: bool)
    | FisCall(who: Account, fis: BankCall)
    | RtokenCall(who: Account, s: RSymbol, rtoken: BankCall)
    | LpTransferCall(who: Account, s: RSymbol, to: Account, v: u128)

  function Step(d: State, c: Call): State
  {
    match c
    case SwapCall(who, s, input, minOut, inputIsFis, payable) => Swap(d, who, s, input, minOut, inputIsFis, payable).0
    case AddCall(who, s, r, f, allowed, payable) => AddLiquidity(d, who, s, r, f, allowed, payable).0
    case RemoveCall(who, s, rm, su, mf, mr, isFis, payable) =>
      RemoveLiquidity(d, who, s, rm, su, mf, mr, isFis, payable).0
    case CreateCall(who, s, r, f, payable) => CreatePool(d, who, s, r, f, payable).0
    case FisCall(_, call) => d.(fis := BankStep(d.fis, call))
    case RtokenCall(_, s, call) => d.(rtokens := d.rtokens[s := BankStep(RBank(d, s), call)])
    case LpTransferCall(who, s, to, v) => d.(lps := d.lps[s := BankStep(LpBank(d, s), TransferCall(who, to, v))])
  }

  function Run(d: State, calls: seq<Call>): State
    decreases |calls|
  {
    if calls == [] then d else Run(Step(d, calls[0]), calls[1..])
  }

  /** The account a token call debits, when it debits one, signed it. */
  predicate DebitedBy(call: BankCall, who: Account)
  {
    match call
    case TransferCall(from, _, _) => from == who
    case MintCall(_, _) => true
    case BurnCall(from, _) => from == who
  }

  /** The module account signs nothing, and no rToken mint takes a symbol's supply past u128. */
  ghost predicate Admissible(d: State, c: Call)
  {
    && c.who != MODULE
    && (c.FisCall? ==> DebitedBy(c.fis, c.who))
    && (c.RtokenCall? ==> DebitedBy(c.rtoken, c.who))
    && (c.RtokenCall? && c.rtoken.MintCall? ==> Holdings(RBank(d, c.s)) + c.rtoken.v <= U128_MAX)
  }

  ghost predicate AdmissibleRun(d: State, calls: seq<Call>)
    decreases |calls|
  {
    calls != [] ==> Admissible(d, calls[0]) && AdmissibleRun(Step(d, calls[0]), calls[1..])
  }
}
