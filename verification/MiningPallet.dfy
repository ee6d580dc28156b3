/** rdex/mining as the pallet runs it: storage maps updated call by call. */
module MiningPallet {
  import opened Arithmetic
  import opened Tokens
  import opened Mining
  import opened MiningBound
  import opened MiningRuns

  /** What every call keeps: the potential of every grade, and all that goes with it. */
  ghost predicate Kept(w: World, c: Call, w': World) { Sound(w) && Admissible(w.st, c) ==> Sound(w') }

  lemma CallKeeps(w: World, c: Call, now: u32)
    ensures Kept(w, c, Step(w, c, now))
  {
    hide Sound, Admissible, Step;
    if Sound(w) && Admissible(w.st, c) {
      StepSound(w, c, now);
    }
  }

  class RDexMining {
    var pools: map<u32, seq<StakePool>>
    var poolCount: u32
    var stakes: map<StakeKey, Stake>
    var counts: map<(u32, Account), u32>
    var lp: Bank
    /** What each grade has paid and emitted so far. */
    ghost var meters: map<GradeKey, Meter>

    function View(): State
      reads this
    {
      State(pools, poolCount, stakes, counts, lp)
    }

    /** The storage with its history. */
    ghost function Whole(): World
      reads this
    {
      World(View(), meters)
    }

    constructor (lp: Bank)
      ensures Whole() == World(State(map[], 0, map[], map[], lp), map[])
    {
      meters := map[];
      this.pools, this.poolCount, this.stakes, this.counts, this.lp := map[], 0, map[], map[], lp;
    }

    /** `update_pool`: works on a local copy and returns it; storage is written by the caller. */
    method Update(i: u32, g: u32, now: u32) returns (pool: StakePool)
      requires i in pools && g < |pools[i]|
      ensures pool == UpdatePool(pools[i][g], now)
    {
      pool := pools[i][g];
      if now <= pool.lastBlock {
        return;
      }
      if pool.totalLp == 0 {
        pool := pool.(lastBlock := now);
        return;
      }
      var reward := PoolReward(pool.lastBlock, now, pool.perBlock, pool.leftReward);
      if reward > 0 {
        pool := pool.(leftReward := SatSub(pool.leftReward, reward));
        var add := PerShare(reward, pool.totalLp);
        pool := pool.(perShare := SatAdd(pool.perShare, add));
      }
      pool := pool.(lastBlock := now);
    }

    /** T::LpCurrency::transfer */
    method MoveLp(from: Account, to: Account, v: u128) returns (ok: bool)
      modifies this`lp
      ensures match Transfer(old(lp), from, to, v)
              case Moved(b) => ok && lp == b
              case Failed(_) => !ok && lp == old(lp)
    {
      match Transfer(lp, from, to, v) {
        case Moved(b) => lp := b; ok := true;
        case Failed(_) => ok := false;
      }
    }

    method DepositLp(who: Account, i: u32, g: u32, amount: u128, now: u32, allowed: bool, swapPoolExists: bool)
      returns (error: Option<MiningError>)
      modifies this
      ensures Outcome(View(), error, 0) == Deposit(old(View()), who, i, g, amount, now, allowed, swapPoolExists)
      ensures Whole() == Step(old(Whole()), DepositCall(who, i, g, amount, allowed, swapPoolExists), now)
              && Kept(old(Whole()), DepositCall(who, i, g, amount, allowed, swapPoolExists), Whole())
    {
      hide Accrued, UpdatePool, Wrap32, SatAdd32, Kept;
      CallKeeps(Whole(), DepositCall(who, i, g, amount, allowed, swapPoolExists), now);
      meters := Step(Whole(), DepositCall(who, i, g, amount, allowed, swapPoolExists), now).meters;
      if !allowed { return Some(DepositNotAllowed); }
      if i !in pools { return Some(StakePoolNotExist); }
      var grades := pools[i];
      if g >= |grades| { return Some(GradeIndexOverflow); }
      var pool := grades[g];
      if !swapPoolExists { return Some(SwapPoolNotExist); }
      var k: nat := if (i, who) in counts then counts[(i, who)] else 0;
      if pool.perBlock == 0 { return Some(CalPoolDuBlockErr); }
      var duration := Wrap32(Floor(pool.totalReward, pool.perBlock));
      if amount == 0 { return Some(AmountZero); }
      if pool.emergency { return Some(EmergencySwitchIsOpen); }
      if Free(lp, who) < amount { return Some(LpBalanceNotEnough); }
      if Wrap32(now + pool.lockedBlocks) >= SatAdd32(pool.start, duration) { return Some(UnLockWillAfterEndErr); }
      var ok := MoveLp(who, MODULE, amount);
      if !ok { return Some(TransferFailed); }
      pool := Update(i, g, now);
      pool := pool.(totalLp := SatAdd(pool.totalLp, amount));
      grades := grades[g := pool];
      var stake := Stake(amount, Accrued(amount, pool.perShare), now, g, 0);
      stakes := stakes[(i, who, k) := stake];
      pools := pools[i := grades];
      counts := counts[(i, who) := Wrap32(k + 1)];
      return None;
    }

    method WithdrawLp(who: Account, i: u32, k: u32, amount: u128, now: u32, payable: bool)
      returns (error: Option<MiningError>, paid: u128)
      modifies this
      ensures Outcome(View(), error, paid) == Withdraw(old(View()), who, i, k, amount, now, payable)
      ensures Whole() == Step(old(Whole()), WithdrawCall(who, i, k, amount, payable), now)
              && Kept(old(Whole()), WithdrawCall(who, i, k, amount, payable), Whole())
    {
      hide Kept, Accrued, UpdatePool;
      CallKeeps(Whole(), WithdrawCall(who, i, k, amount, payable), now);
      meters := Step(Whole(), WithdrawCall(who, i, k, amount, payable), now).meters;
      if (i, who, k) !in stakes { return Some(StakeUserNotExist), 0; }
      var user := stakes[(i, who, k)];
      if i !in pools { return Some(StakePoolNotExist), 0; }
      var grades := pools[i];
      if user.grade >= |grades| { return Some(GradeIndexOverflow), 0; }
      var pool := grades[user.grade];
      if now <= SatAdd32(pool.lockedBlocks, user.depositHeight) { return Some(LpStillLocked), 0; }
      if pool.emergency { return Some(EmergencySwitchIsOpen), 0; }
      if amount == 0 { return Some(AmountZero), 0; }
      if user.lp < amount { return Some(StakeLpNotEnough), 0; }
      if pool.totalLp < user.lp { return Some(LpBalanceNotEnough), 0; }
      pool := Update(i, user.grade, now);
      pool := pool.(totalLp := SatSub(pool.totalLp, amount));
      grades := grades[user.grade := pool];
      var reward := SatSub(Accrued(user.lp, pool.perShare), user.debt);
      user := user.(lp := SatSub(user.lp, amount));
      user := user.(debt := Accrued(user.lp, pool.perShare), claimed := SatAdd(user.claimed, reward));
      if reward > 0 && !payable { return Some(TransferFailed), 0; }
      var ok := MoveLp(MODULE, who, amount);
      if !ok { return Some(TransferFailed), reward; }
      stakes := stakes[(i, who, k) := user];
      pools := pools[i := grades];
      return None, reward;
    }

    method Claim(who: Account, i: u32, k: u32, now: u32, payable: bool) returns (error: Option<MiningError>, paid: u128)
      modifies this
      ensures Outcome(View(), error, paid) == ClaimReward(old(View()), who, i, k, now, payable)
      ensures Whole() == Step(old(Whole()), ClaimCall(who, i, k, payable), now)
              && Kept(old(Whole()), ClaimCall(who, i, k, payable), Whole())
    {
      hide Kept, Accrued, UpdatePool;
      CallKeeps(Whole(), ClaimCall(who, i, k, payable), now);
      meters := Step(Whole(), ClaimCall(who, i, k, payable), now).meters;
      if (i, who, k) !in stakes { return Some(StakeUserNotExist), 0; }
      var user := stakes[(i, who, k)];
      if i !in pools { return Some(StakePoolNotExist), 0; }
      var grades := pools[i];
      if user.grade >= |grades| { return Some(GradeIndexOverflow), 0; }
      if grades[user.grade].emergency { return Some(EmergencySwitchIsOpen), 0; }
      var pool := Update(i, user.grade, now);
      grades := grades[user.grade := pool];
      var reward := SatSub(Accrued(user.lp, pool.perShare), user.debt);
      user := user.(claimed := SatAdd(user.claimed, reward));
      user := user.(debt := Accrued(user.lp, pool.perShare));
      if reward > 0 && !payable { return Some(TransferFailed), 0; }
      stakes := stakes[(i, who, k) := user];
      pools := pools[i := grades];
      return None, reward;
    }

    method WithdrawInEmergency(who: Account, i: u32, k: u32) returns (error: Option<MiningError>)
      modifies this
      ensures Outcome(View(), error, 0) == EmergencyWithdraw(old(View()), who, i, k)
      ensures Whole() == Step(old(Whole()), EmergencyCall(who, i, k), 0)
              && Kept(old(Whole()), EmergencyCall(who, i, k), Whole())
    {
      hide Kept, Accrued, UpdatePool;
      CallKeeps(Whole(), EmergencyCall(who, i, k), 0);
      meters := Step(Whole(), EmergencyCall(who, i, k), 0).meters;
      if (i, who, k) !in stakes { return Some(StakeUserNotExist); }
      var user := stakes[(i, who, k)];
      if i !in pools { return Some(StakePoolNotExist); }
      var grades := pools[i];
      if user.grade >= |grades| { return Some(GradeIndexOverflow); }
      var pool := grades[user.grade];
      if !pool.emergency { return Some(EmergencySwitchIsClose); }
      if user.lp == 0 { return Some(AmountZero); }
      var amount := user.lp;
      pool := pool.(totalLp := SatSub(pool.totalLp, amount));
      grades := grades[user.grade := pool];
      user := user.(lp := 0, debt := 0);
      var ok := MoveLp(MODULE, who, amount);
      if !ok { return Some(TransferFailed); }
      stakes := stakes[(i, who, k) := user];
      pools := pools[i := grades];
      return None;
    }

    method AddGrade(i: u32, start: u32, locked: u32, perBlock: u128, total: u128, now: u32)
      returns (error: Option<MiningError>)
      modifies this
      ensures Outcome(View(), error, 0) == AddPool(old(View()), i, start, locked, perBlock, total, now)
      ensures Whole() == Step(old(Whole()), AddPoolCall(i, start, locked, perBlock, total), now)
              && Kept(old(Whole()), AddPoolCall(i, start, locked, perBlock, total), Whole())
    {
      hide Kept, Accrued, UpdatePool;
      CallKeeps(Whole(), AddPoolCall(i, start, locked, perBlock, total), now);
      meters := Step(Whole(), AddPoolCall(i, start, locked, perBlock, total), now).meters;
      if i !in pools { return Some(StakePoolNotExist); }
      var lastBlock := if now < start then start else now;
      var pool := StakePool(false, 0, start, perBlock, total, total, locked, lastBlock, 0);
      pools := pools[i := pools[i] + [pool]];
      return None;
    }

    method UpdateGrade(i: u32, g: u32, perBlock: u128, total: u128) returns (error: Option<MiningError>)
      modifies this
      ensures Outcome(View(), error, 0) == UpdateStakePool(old(View()), i, g, perBlock, total)
      ensures Whole() == Step(old(Whole()), UpdateCall(i, g, perBlock, total), 0)
              && Kept(old(Whole()), UpdateCall(i, g, perBlock, total), Whole())
    {
      hide Kept, Accrued, UpdatePool;
      CallKeeps(Whole(), UpdateCall(i, g, perBlock, total), 0);
      meters := Step(Whole(), UpdateCall(i, g, perBlock, total), 0).meters;
      if i !in pools { return Some(StakePoolNotExist); }
      var grades := pools[i];
      if g >= |grades| { return Some(GradeIndexOverflow); }
      var pool := grades[g];
      var left: u128;
      if total > pool.totalReward {
        left := SatAdd(SatSub(total, pool.totalReward), pool.leftReward);
      } else {
        left := SatSub(pool.leftReward, SatSub(pool.totalReward, total));
      }
      pool := pool.(perBlock := perBlock, totalReward := total, leftReward := left);
      pools := pools[i := grades[g := pool]];
      return None;
    }

    method RemoveGrade(i: u32, g: u32) returns (error: Option<MiningError>)
      modifies this
      ensures Outcome(View(), error, 0) == RemovePool(old(View()), i, g)
      ensures Whole() == Step(old(Whole()), RemovePoolCall(i, g), 0)
              && Kept(old(Whole()), RemovePoolCall(i, g), Whole())
    {
      hide Kept;
      CallKeeps(Whole(), RemovePoolCall(i, g), 0);
      if i !in pools { return Some(StakePoolNotExist); }
      var grades := pools[i];
      if g >= |grades| { return Some(GradeIndexOverflow); }
      if grades[g].totalLp != 0 { return Some(LpBalanceNotEmpty); }
      pools := pools[i := grades[..g] + grades[g + 1..]];
      return None;
    }
  }
}
