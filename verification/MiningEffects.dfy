/** What the calls of rdex/mining do to stakes, grades and the accounts that hold the LP. */
module MiningEffects {
  import opened Arithmetic
  import opened Sums
  import opened Tokens
  import opened Mining
  import opened MiningBound
  import opened MiningRuns
  import opened MiningEmission

  // ----- accrual and emission

  /** out is the floor of lp times the reward per share over REWARD_FACTOR, the product cut at u128. */
  predicate IsAccrued(lp: u128, perShare: u128, out: nat)
  {
    REWARD_FACTOR * out <= Min(lp * perShare, U128_MAX) < REWARD_FACTOR * out + REWARD_FACTOR
  }

  lemma AccruedIs(lp: u128, perShare: u128, out: nat)
    ensures out == Accrued(lp, perShare) <==> IsAccrued(lp, perShare, out)
  {
    FloorBounds(SatMul(lp, perShare), REWARD_FACTOR);
  }

  /** credit is what one of `total` units gains from an emission, the scaled emission cut at u128. */
  predicate IsPerShare(emission: u128, total: u128, credit: nat)
  {
    total * credit <= Min(emission * REWARD_FACTOR, U128_MAX) < total * credit + total
  }

  lemma PerShareIs(emission: u128, total: u128, credit: nat)
    requires total > 0
    ensures credit == PerShare(emission, total) <==> IsPerShare(emission, total, credit)
  {
    var scaled := SatMul(emission, REWARD_FACTOR);
    FloorBounds(scaled, total);
    if IsPerShare(emission, total, credit) {
      FloorUnique(scaled, total, credit, Floor(scaled, total));
    }
  }

  /** An update of a staked grade moves the emission out of what is left and credits every unit alike. */
  lemma UpdateDoes(p: StakePool, now: u32, credit: u128)
    requires p.totalLp > 0 && IsPerShare(Emission(p, now), p.totalLp, credit)
    ensures UpdatePool(p, now) == p.(leftReward := p.leftReward - Emission(p, now),
                                     perShare := Min(p.perShare + credit, U128_MAX),
                                     lastBlock := if now <= p.lastBlock then p.lastBlock else now)
  {
    hide UpdatePool, Emission, PerShare;
    UpdateClosed(p, now);
    PerShareIs(Emission(p, now), p.totalLp, credit);
  }

  /** Blocks without stake emit nothing. */
  lemma IdleUpdate(p: StakePool, now: u32)
    requires p.totalLp == 0
    ensures UpdatePool(p, now) == p.(lastBlock := if now <= p.lastBlock then p.lastBlock else now)
  {
  }

  /** A new grade holds its whole reward and emits it from its start on, or from its creation if that is later. */
  lemma NewGradeEmits(d: State, i: u32, start: u32, locked: u32, perBlock: u128, total: u128, now: u32, lp: u128,
                      later: u32)
    requires i in d.pools
    ensures var d' := AddPool(d, i, start, locked, perBlock, total, now).st;
            && |d'.pools[i]| == |d.pools[i]| + 1 && d'.pools[i][..|d.pools[i]|] == d.pools[i]
            && d' == d.(pools := d.pools[i := d'.pools[i]])
            && var p := d'.pools[i][|d.pools[i]|];
               && p.totalLp == 0 && p.perShare == 0 && p.leftReward == p.totalReward == total && !p.emergency
               && p.lockedBlocks == locked && p.start == start && p.perBlock == perBlock
               && Emission(p.(totalLp := lp), later) ==
                  if later <= start || later <= now then 0
                  else Min((later - if now < start then start else now) * perBlock, total)
  {
    var d' := AddPool(d, i, start, locked, perBlock, total, now).st;
    assert d'.pools[i][..|d.pools[i]|] == d.pools[i];
  }

  // ----- what a call leaves alone

  /** Of the pools only grade g of pool i is different, of the stakes only the one at key. */
  ghost predicate OnlyStake(d: State, d': State, i: u32, g: u32, key: StakeKey)
  {
    && HasGrade(d, i, g) && HasGrade(d', i, g) && key in d'.stakes && d'.poolCount == d.poolCount
    && d'.pools == d.pools[i := d.pools[i][g := d'.pools[i][g]]] && d'.stakes == d.stakes[key := d'.stakes[key]]
  }

  // ----- deposits

  /** A deposit succeeds exactly if the grade takes it, it can be unlocked before the grade ends, and the account
      has the LP; `blocks` is how many blocks the total reward lasts. */
  lemma DepositSucceeds(w: World, who: Account, i: u32, g: u32, lp: u128, now: u32, allowed: bool,
                        swapPoolExists: bool, blocks: nat)
    requires Sound(w) && who != MODULE
    requires HasGrade(w.st, i, g) && w.st.pools[i][g].perBlock > 0 ==>
               var p := w.st.pools[i][g];
               p.perBlock * blocks <= p.totalReward < p.perBlock * blocks + p.perBlock
    ensures Deposit(w.st, who, i, g, lp, now, allowed, swapPoolExists).error.None? <==>
              && allowed && swapPoolExists && HasGrade(w.st, i, g) && 0 < lp <= Free(w.st.lp, who)
              && var p := w.st.pools[i][g];
                 && p.perBlock > 0 && !p.emergency
                 && Wrap32(now + p.lockedBlocks) < Min(p.start + Wrap32(blocks), U32_MAX)
  {
    hide UpdatePool, Accrued, Sum, GradesOk, PastOk, Wrap32;
    TransferFailsOnlyShort(w.st.lp, who, MODULE, lp);
    if HasGrade(w.st, i, g) && w.st.pools[i][g].perBlock > 0 {
      var p := w.st.pools[i][g];
      FloorBounds(p.totalReward, p.perBlock);
      FloorUnique(p.totalReward, p.perBlock, blocks, Floor(p.totalReward, p.perBlock));
    }
  }

  /** A deposit moves the LP into the module and opens a stake of exactly that size, whose debt is what it would
      already have accrued in the updated grade. */
  lemma DepositDoes(w: World, who: Account, i: u32, g: u32, lp: u128, now: u32, allowed: bool, swapPoolExists: bool)
    requires Sound(w) && who != MODULE && Count(w.st, i, who) < U32_MAX
    requires Deposit(w.st, who, i, g, lp, now, allowed, swapPoolExists).error.None?
    ensures var d, o := w.st, Deposit(w.st, who, i, g, lp, now, allowed, swapPoolExists);
            var d', k, key := o.st, Count(d, i, who), (i, who, Count(d, i, who));
            && o.paid == 0 && key !in d.stakes && OnlyStake(d, d', i, g, key) && Pays(d.lp, d'.lp, who, MODULE, lp)
            && d'.counts == d.counts[(i, who) := k + 1]
            && d.pools[i][g].totalLp + lp <= U128_MAX
            && d'.pools[i][g] == UpdatePool(d.pools[i][g], now).(totalLp := d.pools[i][g].totalLp + lp)
            && d'.stakes[key] == Stake(lp, d'.stakes[key].debt, now, g, 0)
            && IsAccrued(lp, d'.pools[i][g].perShare, d'.stakes[key].debt)
  {
    hide UpdatePool, Accrued, Sum, GradesOk, PastOk, VaultOk, Transfer, Pays, UnlocksBeforeEnd;
    var p, p' := w.st.pools[i][g], UpdatePool(w.st.pools[i][g], now);
    TransferPays(w.st.lp, who, MODULE, lp);
    TransferConserves(w.st.lp, who, MODULE, lp);
    SoundParts(w, i, g);
    GradeWithinVault(w, i, g);
    FundsFit(w.st.lp, who, lp, p.totalLp);
    UpdateEffect(p, now);
    AccruedIs(lp, p'.perShare, Accrued(lp, p'.perShare));
    NoWrap32(Count(w.st, i, who) + 1);
  }

  lemma FundsFit(b: Bank, who: Account, lp: u128, staked: u128)
    requires who != MODULE && Holdings(b) <= U128_MAX && lp <= Free(b, who) && staked <= Free(b, MODULE)
    ensures staked + lp <= U128_MAX
  {
    TwoAtMostHoldings(b, who, MODULE);
  }

  // ----- withdrawals and claims

  /** The grade and the stake a user call works on. */
  predicate Staked(d: State, key: StakeKey) { key in d.stakes && HasGrade(d, key.0, d.stakes[key].grade) }

  /** The stake was settled: it is paid for everything accrued beyond its debt, which becomes what the units kept
      have accrued. */
  ghost predicate Settled(d: State, d': State, key: StakeKey, kept: nat, paid: nat)
    requires Staked(d, key) && key in d'.stakes
  {
    var s, t := d.stakes[key], d'.stakes[key];
    HasGrade(d', key.0, s.grade)
    && var perShare := d'.pools[key.0][s.grade].perShare;
       && IsAccrued(s.lp, perShare, s.debt + paid) && IsAccrued(t.lp, perShare, t.debt)
       && t.lp == kept && t.claimed == Min(s.claimed + paid, U128_MAX)
       && t.depositHeight == s.depositHeight && t.grade == s.grade
  }

  /** A claim succeeds exactly if the grade is not in emergency and the reward, if any, can be paid. */
  lemma ClaimSucceeds(w: World, who: Account, i: u32, k: u32, now: u32, payable: bool)
    requires Sound(w) && who != MODULE
    ensures ClaimReward(w.st, who, i, k, now, payable).error.None? <==>
              && Staked(w.st, (i, who, k))
              && var s := w.st.stakes[(i, who, k)]; var p := w.st.pools[i][s.grade];
                 !p.emergency && (payable || IsAccrued(s.lp, UpdatePool(p, now).perShare, s.debt))
  {
    hide UpdatePool, Accrued, Sum, GradeOk, GradesOk, PastOk, VaultOk, KeysOk;
    if Staked(w.st, (i, who, k)) {
      DebtWithin(w, (i, who, k), now);
    }
  }

  /** In an updated grade no stake owes more than it has accrued. */
  lemma DebtWithin(w: World, key: StakeKey, now: u32)
    requires Sound(w) && Staked(w.st, key)
    ensures var s := w.st.stakes[key]; var perShare := UpdatePool(w.st.pools[key.0][s.grade], now).perShare;
            && s.debt <= Accrued(s.lp, perShare)
            && (s.debt == Accrued(s.lp, perShare) <==> IsAccrued(s.lp, perShare, s.debt))
  {
    hide UpdatePool, Accrued, Sum, GradesOk, PastOk, VaultOk, KeysOk;
    var s := w.st.stakes[key];
    var p := w.st.pools[key.0][s.grade];
    StakeCovered(w, key);
    UpdateEffect(p, now);
    AccruedMono(s.lp, p.perShare, UpdatePool(p, now).perShare);
    AccruedIs(s.lp, UpdatePool(p, now).perShare, s.debt);
  }

  lemma ClaimDoes(w: World, who: Account, i: u32, k: u32, now: u32, payable: bool)
    requires Sound(w) && who != MODULE && ClaimReward(w.st, who, i, k, now, payable).error.None?
    ensures var d, o, key := w.st, ClaimReward(w.st, who, i, k, now, payable), (i, who, k);
            Staked(d, key)
            && var g, d' := d.stakes[key].grade, o.st;
               && OnlyStake(d, d', i, g, key) && d'.counts == d.counts && d'.lp == d.lp
               && d'.pools[i][g] == UpdatePool(d.pools[i][g], now)
               && Settled(d, d', key, d.stakes[key].lp, o.paid)
  {
    hide UpdatePool, Accrued, Sum, GradeOk, GradesOk, PastOk, VaultOk, KeysOk, IsAccrued;
    var key := (i, who, k);
    var s := w.st.stakes[key];
    var perShare := UpdatePool(w.st.pools[i][s.grade], now).perShare;
    DebtWithin(w, key, now);
    AccruedIs(s.lp, perShare, Accrued(s.lp, perShare));
  }

  /** A withdrawal succeeds exactly if the lock is over, the grade is not in emergency, the stake has the units and
      the reward, if any, can be paid. */
  lemma WithdrawSucceeds(w: World, who: Account, i: u32, k: u32, lp: u128, now: u32, payable: bool)
    requires Sound(w) && who != MODULE
    ensures Withdraw(w.st, who, i, k, lp, now, payable).error.None? <==>
              && Staked(w.st, (i, who, k))
              && var s := w.st.stakes[(i, who, k)]; var p := w.st.pools[i][s.grade];
                 && now > Min(p.lockedBlocks + s.depositHeight, U32_MAX) && !p.emergency && 0 < lp <= s.lp
                 && (payable || IsAccrued(s.lp, UpdatePool(p, now).perShare, s.debt))
  {
    hide UpdatePool, Accrued, Sum, GradesOk, PastOk, KeysOk;
    var key := (i, who, k);
    if Staked(w.st, key) {
      DebtWithin(w, key, now);
      StakeInVault(w, key);
      StakeInTotal(w, key);
      if lp <= w.st.stakes[key].lp {
        TransferFailsOnlyShort(w.st.lp, MODULE, who, lp);
      }
    }
  }

  lemma StakeInTotal(w: World, key: StakeKey)
    requires Sound(w) && Staked(w.st, key)
    ensures w.st.stakes[key].lp <= w.st.pools[key.0][w.st.stakes[key].grade].totalLp
  {
    SoundParts(w, key.0, w.st.stakes[key].grade);
    StakeInGrade(w.st.stakes, key);
    SumMember(LpOf(GradeStakes(w.st.stakes, key.0, w.st.stakes[key].grade)), key);
  }

  /** A withdrawal returns exactly the units asked for and settles the stake. */
  lemma WithdrawDoes(w: World, who: Account, i: u32, k: u32, lp: u128, now: u32, payable: bool)
    requires Sound(w) && who != MODULE && Withdraw(w.st, who, i, k, lp, now, payable).error.None?
    ensures var d, o, key := w.st, Withdraw(w.st, who, i, k, lp, now, payable), (i, who, k);
            Staked(d, key)
            && var g, d' := d.stakes[key].grade, o.st;
               && OnlyStake(d, d', i, g, key) && d'.counts == d.counts && Pays(d.lp, d'.lp, MODULE, who, lp)
               && lp <= d.stakes[key].lp <= d.pools[i][g].totalLp
               && d'.pools[i][g] == UpdatePool(d.pools[i][g], now).(totalLp := d.pools[i][g].totalLp - lp)
               && Settled(d, d', key, d.stakes[key].lp - lp, o.paid)
  {
    hide UpdatePool, Accrued, Sum, GradeOk, GradesOk, PastOk, VaultOk, KeysOk, Transfer, Pays, IsAccrued;
    var key := (i, who, k);
    var s := w.st.stakes[key];
    var p := UpdatePool(w.st.pools[i][s.grade], now);
    UpdateEffect(w.st.pools[i][s.grade], now);
    TransferPays(w.st.lp, MODULE, who, lp);
    DebtWithin(w, key, now);
    StakeInTotal(w, key);
    AccruedIs(s.lp, p.perShare, Accrued(s.lp, p.perShare));
    AccruedIs(s.lp - lp, p.perShare, Accrued(s.lp - lp, p.perShare));
  }

  /** In an emergency, and only then, the whole stake comes back at once and without its reward. */
  lemma EmergencyDoes(w: World, who: Account, i: u32, k: u32)
    requires Sound(w) && who != MODULE
    ensures var d, o, key := w.st, EmergencyWithdraw(w.st, who, i, k), (i, who, k);
            && o.paid == 0
            && (o.error.None? <==>
                  && Staked(d, key) && d.pools[i][d.stakes[key].grade].emergency && d.stakes[key].lp > 0)
            && (o.error.None? ==>
                  var g, s, d' := d.stakes[key].grade, d.stakes[key], o.st;
                  && OnlyStake(d, d', i, g, key) && d'.counts == d.counts && Pays(d.lp, d'.lp, MODULE, who, s.lp)
                  && s.lp <= d.pools[i][g].totalLp
                  && d'.pools[i][g] == d.pools[i][g].(totalLp := d.pools[i][g].totalLp - s.lp)
                  && d'.stakes[key] == s.(lp := 0, debt := 0))
  {
    hide Sum, GradeOk, GradesOk, PastOk, KeysOk, Pays;
    var key := (i, who, k);
    if Staked(w.st, key) {
      StakeInVault(w, key);
      StakeInTotal(w, key);
      TransferFailsOnlyShort(w.st.lp, MODULE, who, w.st.stakes[key].lp);
      TransferPays(w.st.lp, MODULE, who, w.st.stakes[key].lp);
    }
  }
}
