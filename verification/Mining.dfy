/** rdex/mining for one symbol: staked LP units earn a per-share reward from a
    capped budget. Pools are graded lists, stakes are keyed by pool, account
    and stake index. */
module Mining {
  import opened Arithmetic
  import opened Tokens

  const REWARD_FACTOR: nat := 1_000_000_000_000

  /** The pallet's own account; it never signs. */
  const MODULE: Account := 1

  datatype StakePool = StakePool(
    emergency: bool, totalLp: u128, start: u32, perBlock: u128, totalReward: u128, leftReward: u128,
    lockedBlocks: u32, lastBlock: u32, perShare: u128)

  datatype Stake = Stake(lp: u128, debt: u128, depositHeight: u32, grade: u32, claimed: u128)

  type StakeKey = (u32, Account, u32)

  datatype State = State(
    pools: map<u32, seq<StakePool>>, poolCount: u32, stakes: map<StakeKey, Stake>, counts: map<(u32, Account), u32>,
    lp: Bank)

  datatype MiningError =
    | AmountZero | StakePoolNotExist | SwapPoolNotExist | StakeUserNotExist | EmergencySwitchIsOpen
    | EmergencySwitchIsClose | LpBalanceNotEnough | StakeLpNotEnough | CalPoolDuBlockErr | UnLockWillAfterEndErr
    | LpBalanceNotEmpty | LpStillLocked | GradeIndexOverflow | DepositNotAllowed | TransferFailed

  /** The state a call leaves, its error if any, and the native reward it paid out. */
  datatype Outcome = Outcome(st: State, error: Option<MiningError>, paid: u128)

  function Fail(d: State, e: MiningError): Outcome { Outcome(d, Some(e), 0) }

  // ----- reward arithmetic

  /** `get_pool_reward` */
  function PoolReward(from: u32, to: u32, perBlock: u128, left: u128): u128
  {
    var reward := SatMul(SatSub(to, from), perBlock);
    if reward < left then reward else left
  }

  /** `update_pool` */
  function UpdatePool(p: StakePool, now: u32): StakePool
  {
    if now <= p.lastBlock then p
    else if p.totalLp == 0 then p.(lastBlock := now)
    else
      var reward := PoolReward(p.lastBlock, now, p.perBlock, p.leftReward);
      if reward == 0 then p.(lastBlock := now)
      else p.(leftReward := SatSub(p.leftReward, reward),
              perShare := SatAdd(p.perShare, PerShare(reward, p.totalLp)),
              lastBlock := now)
  }

  /** What one unit of LP gains when `reward` is spread over `total` units. */
  function PerShare(reward: u128, total: u128): u128
    requires total > 0
  {
    var scaled := SatMul(reward, REWARD_FACTOR);
    Floor(scaled, total)
  }

  /** `lp * reward_per_share / REWARD_FACTOR`, as every call computes it. */
  function Accrued(lp: u128, perShare: u128): u128
  {
    var product := SatMul(lp, perShare);
    Floor(product, REWARD_FACTOR)
  }

  // ----- the calls

  predicate HasGrade(d: State, i: u32, g: u32) { i in d.pools && g < |d.pools[i]| }

  function SetPool(d: State, i: u32, g: u32, p: StakePool): State
    requires HasGrade(d, i, g)
  {
    d.(pools := d.pools[i := d.pools[i][g := p]])
  }

  function Count(d: State, i: u32, who: Account): u32 { if (i, who) in d.counts then d.counts[(i, who)] else 0 }

  /** `now + lp_locked_blocks < start_block + total_reward / reward_per_block`, with the widths of the source. */
  predicate UnlocksBeforeEnd(p: StakePool, now: u32)
    requires p.perBlock > 0
  {
    Wrap32(now + p.lockedBlocks) < SatAdd32(p.start, Wrap32(Floor(p.totalReward, p.perBlock)))
  }

  function Deposit(d: State, who: Account, i: u32, g: u32, lp: u128, now: u32, allowed: bool,
                   swapPoolExists: bool): Outcome
  {
    if !allowed then Fail(d, DepositNotAllowed)
    else if i !in d.pools then Fail(d, StakePoolNotExist)
    else if g >= |d.pools[i]| then Fail(d, GradeIndexOverflow)
    else if !swapPoolExists then Fail(d, SwapPoolNotExist)
    else
      var pool := d.pools[i][g];
      if pool.perBlock == 0 then Fail(d, CalPoolDuBlockErr)
      else if lp == 0 then Fail(d, AmountZero)
      else if pool.emergency then Fail(d, EmergencySwitchIsOpen)
      else if Free(d.lp, who) < lp then Fail(d, LpBalanceNotEnough)
      else if !UnlocksBeforeEnd(pool, now) then Fail(d, UnLockWillAfterEndErr)
      else match Transfer(d.lp, who, MODULE, lp)
        case Failed(_) => Fail(d, TransferFailed)
        case Moved(bank) =>
          var pool' := UpdatePool(pool, now);
          var k := Count(d, i, who);
          Outcome(SetPool(d, i, g, pool'.(totalLp := SatAdd(pool'.totalLp, lp)))
                  .(lp := bank, counts := d.counts[(i, who) := Wrap32(k + 1)],
                    stakes := d.stakes[(i, who, k) := Stake(lp, Accrued(lp, pool'.perShare), now, g, 0)]), None, 0)
  }

  function Withdraw(d: State, who: Account, i: u32, k: u32, lp: u128, now: u32, payable: bool): Outcome
  {
    if (i, who, k) !in d.stakes then Fail(d, StakeUserNotExist)
    else if i !in d.pools then Fail(d, StakePoolNotExist)
    else
      var user := d.stakes[(i, who, k)];
      if user.grade >= |d.pools[i]| then Fail(d, GradeIndexOverflow)
      else
        var pool := d.pools[i][user.grade];
        if now <= SatAdd32(pool.lockedBlocks, user.depositHeight) then Fail(d, LpStillLocked)
        else if pool.emergency then Fail(d, EmergencySwitchIsOpen)
        else if lp == 0 then Fail(d, AmountZero)
        else if user.lp < lp then Fail(d, StakeLpNotEnough)
        else if pool.totalLp < user.lp then Fail(d, LpBalanceNotEnough)
        else
          var pool' := UpdatePool(pool, now);
          var reward := SatSub(Accrued(user.lp, pool'.perShare), user.debt);
          var kept := SatSub(user.lp, lp);
          if reward > 0 && !payable then Fail(d, TransferFailed)
          else match Transfer(d.lp, MODULE, who, lp)
            case Failed(_) => Outcome(d, Some(TransferFailed), reward)
            case Moved(bank) =>
              Outcome(SetPool(d, i, user.grade, pool'.(totalLp := SatSub(pool'.totalLp, lp)))
                      .(lp := bank,
                        stakes := d.stakes[(i, who, k) :=
                          user.(lp := kept, debt := Accrued(kept, pool'.perShare),
                                claimed := SatAdd(user.claimed, reward))]),
                      None, reward)
  }

  function ClaimReward(d: State, who: Account, i: u32, k: u32, now: u32, payable: bool): Outcome
  {
    if (i, who, k) !in d.stakes then Fail(d, StakeUserNotExist)
    else if i !in d.pools then Fail(d, StakePoolNotExist)
    else
      var user := d.stakes[(i, who, k)];
      if user.grade >= |d.pools[i]| then Fail(d, GradeIndexOverflow)
      else if d.pools[i][user.grade].emergency then Fail(d, EmergencySwitchIsOpen)
      else
        var pool' := UpdatePool(d.pools[i][user.grade], now);
        var reward := SatSub(Accrued(user.lp, pool'.perShare), user.debt);
        if reward > 0 && !payable then Fail(d, TransferFailed)
        else
          Outcome(SetPool(d, i, user.grade, pool')
                  .(stakes := d.stakes[(i, who, k) :=
                      user.(debt := Accrued(user.lp, pool'.perShare), claimed := SatAdd(user.claimed, reward))]),
                  None, reward)
  }

  function EmergencyWithdraw(d: State, who: Account, i: u32, k: u32): Outcome
  {
    if (i, who, k) !in d.stakes then Fail(d, StakeUserNotExist)
    else if i !in d.pools then Fail(d, StakePoolNotExist)
    else
      var user := d.stakes[(i, who, k)];
      if user.grade >= |d.pools[i]| then Fail(d, GradeIndexOverflow)
      else
        var pool := d.pools[i][user.grade];
        if !pool.emergency then Fail(d, EmergencySwitchIsClose)
        else if user.lp == 0 then Fail(d, AmountZero)
        else match Transfer(d.lp, MODULE, who, user.lp)
          case Failed(_) => Fail(d, TransferFailed)
          case Moved(bank) =>
            Outcome(SetPool(d, i, user.grade, pool.(totalLp := SatSub(pool.totalLp, user.lp)))
                    .(lp := bank, stakes := d.stakes[(i, who, k) := user.(lp := 0, debt := 0)]), None, 0)
  }

  function AddPool(d: State, i: u32, start: u32, locked: u32, perBlock: u128, total: u128, now: u32): Outcome
  {
    if i !in d.pools then Fail(d, StakePoolNotExist)
    else
      var pool := StakePool(false, 0, start, perBlock, total, total, locked, if now < start then start else now, 0);
      Outcome(d.(pools := d.pools[i := d.pools[i] + [pool]]), None, 0)
  }

  function UpdateStakePool(d: State, i: u32, g: u32, perBlock: u128, total: u128): Outcome
  {
    if i !in d.pools then Fail(d, StakePoolNotExist)
    else if g >= |d.pools[i]| then Fail(d, GradeIndexOverflow)
    else
      var pool := d.pools[i][g];
      var left := if total > pool.totalReward then SatAdd(SatSub(total, pool.totalReward), pool.leftReward)
                  else SatSub(pool.leftReward, SatSub(pool.totalReward, total));
      Outcome(SetPool(d, i, g, pool.(perBlock := perBlock, totalReward := total, leftReward := left)), None, 0)
  }

  /** `rm_pool`: later grades move down by one index. */
  function RemovePool(d: State, i: u32, g: u32): Outcome
  {
    if i !in d.pools then Fail(d, StakePoolNotExist)
    else if g >= |d.pools[i]| then Fail(d, GradeIndexOverflow)
    else if d.pools[i][g].totalLp != 0 then Fail(d, LpBalanceNotEmpty)
    else Outcome(d.(pools := d.pools[i := d.pools[i][..g] + d.pools[i][g + 1..]]), None, 0)
  }

  function IncreasePoolIndex(d: State): Outcome
  {
    Outcome(d.(pools := d.pools[d.poolCount := []], poolCount := Wrap32(d.poolCount + 1)), None, 0)
  }

  function EmergencySwitch(d: State, i: u32, g: u32): Outcome
  {
    if i !in d.pools then Fail(d, StakePoolNotExist)
    else if g >= |d.pools[i]| then Fail(d, GradeIndexOverflow)
    else Outcome(SetPool(d, i, g, d.pools[i][g].(emergency := !d.pools[i][g].emergency)), None, 0)
  }

  // ----- runs, metered per grade

  datatype Call =
    | DepositCall(who: Account, i: u32, g: u32, lp: u128, allowed: bool, swapPoolExists: bool)
    | WithdrawCall(who: Account, i: u32, k: u32, lp: u128, payable: bool)
    | ClaimCall(who: Account, i: u32, k: u32, payable: bool)
    | EmergencyCall(who: Account, i: u32, k: u32)
    | AddPoolCall(i: u32, start: u32, locked: u32, perBlock: u128, total: u128)
    | UpdateCall(i: u32, g: u32, perBlock: u128, total: u128)
    | RemovePoolCall(i: u32, g: u32)
    | IncreaseCall
    | SwitchCall(i: u32, g: u32)
    | LpCall(who: Account, lpCall: BankCall)

  function Apply(d: State, c: Call, now: u32): Outcome
  {
    match c
    case DepositCall(who, i, g, lp, allowed, exists_) => Deposit(d, who, i, g, lp, now, allowed, exists_)
    case WithdrawCall(who, i, k, lp, payable) => Withdraw(d, who, i, k, lp, now, payable)
    case ClaimCall(who, i, k, payable) => ClaimReward(d, who, i, k, now, payable)
    case EmergencyCall(who, i, k) => EmergencyWithdraw(d, who, i, k)
    case AddPoolCall(i, start, locked, perBlock, total) => AddPool(d, i, start, locked, perBlock, total, now)
    case UpdateCall(i, g, perBlock, total) => UpdateStakePool(d, i, g, perBlock, total)
    case RemovePoolCall(i, g) => RemovePool(d, i, g)
    case IncreaseCall => IncreasePoolIndex(d)
    case SwitchCall(i, g) => EmergencySwitch(d, i, g)
    case LpCall(_, call) => Outcome(d.(lp := BankStep(d.lp, call)), None, 0)
  }

  type GradeKey = (u32, u32)

  /** History of one grade: reward paid, reward emitted, and deposits plus withdrawals. */
  datatype Meter = Meter(paid: nat, emitted: nat, ops: nat)

  datatype World = World(st: State, meters: map<GradeKey, Meter>)

  function MeterOf(w: World, key: GradeKey): Meter { if key in w.meters then w.meters[key] else Meter(0, 0, 0) }

  /** The grade a user call works on. */
  function GradeOf(d: State, c: Call): Option<GradeKey>
  {
    match c
    case DepositCall(_, i, g, _, _, _) => Some((i, g))
    case WithdrawCall(who, i, k, _, _) =>
      if (i, who, k) in d.stakes then Some((i, d.stakes[(i, who, k)].grade)) else None
    case ClaimCall(who, i, k, _) => if (i, who, k) in d.stakes then Some((i, d.stakes[(i, who, k)].grade)) else None
    case _ => None
  }

  function LeftAt(d: State, key: GradeKey): nat
  {
    if HasGrade(d, key.0, key.1) then d.pools[key.0][key.1].leftReward else 0
  }

  function Step(w: World, c: Call, now: u32): World
  {
    var out := Apply(w.st, c, now);
    match GradeOf(w.st, c)
    case None => World(out.st, w.meters)
    case Some(key) =>
      var m := MeterOf(w, key);
      World(out.st, w.meters[key := Meter(
        m.paid + out.paid,
        m.emitted + SatSub(LeftAt(w.st, key), LeftAt(out.st, key)),
        m.ops + if out.error.None? && (c.DepositCall? || c.WithdrawCall?) then 1 else 0)])
  }

  /** Calls at arbitrary block numbers. */
  function Run(w: World, calls: seq<(Call, u32)>): World
    decreases |calls|
  {
    if calls == [] then w else Run(Step(w, calls[0].0, calls[0].1), calls[1..])
  }

  /** The module account signs nothing, LP supply fits u128, no u32 counter wraps, and of the grades of
      a pool only the last is removed. */
  ghost predicate Admissible(d: State, c: Call)
  {
    match c
    case DepositCall(who, i, _, _, _, _) => who != MODULE && Count(d, i, who) < U32_MAX
    case WithdrawCall(who, _, _, _, _) => who != MODULE
    case ClaimCall(who, _, _, _) => who != MODULE
    case EmergencyCall(who, _, _) => who != MODULE
    case RemovePoolCall(i, g) => HasGrade(d, i, g) ==> g == |d.pools[i]| - 1
    case IncreaseCall => d.poolCount < U32_MAX
    case LpCall(who, call) =>
      && who != MODULE
      && (call.TransferCall? ==> call.from == who)
      && (call.BurnCall? ==> call.who == who)
      && (call.MintCall? ==> Holdings(d.lp) + call.v <= U128_MAX)
    case _ => true
  }

  ghost predicate AdmissibleRun(w: World, calls: seq<(Call, u32)>)
    decreases |calls|
  {
    calls != [] ==> Admissible(w.st, calls[0].0) && AdmissibleRun(Step(w, calls[0].0, calls[0].1), calls[1..])
  }
}
