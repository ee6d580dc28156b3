/** The payout bound: over any run, a grade never pays more than it emitted,
    up to one rounding remainder per deposit or withdrawal. */
module MiningBound {
  import opened Arithmetic
  import opened Sums
  import opened Tokens
  import opened Mining

  // ----- one grade: its pool, its stakes, its history

  type Stakes = map<StakeKey, Stake>

  function LpOf(ss: Stakes): map<StakeKey, nat> { map k | k in ss :: ss[k].lp }

  /** Reward a stake has earned and not been paid, scaled by REWARD_FACTOR. */
  function Owed(s: Stake, perShare: u128): nat { SatSub(SatMul(s.lp, perShare), REWARD_FACTOR * s.debt) }

  function OwedOf(ss: Stakes, perShare: u128): map<StakeKey, nat> { map k | k in ss :: Owed(ss[k], perShare) }

  predicate DebtsCovered(ss: Stakes, perShare: u128)
  {
    forall k :: k in ss ==> ss[k].debt <= Accrued(ss[k].lp, perShare)
  }

  ghost predicate PaidWithin(owed: nat, m: Meter)
  {
    REWARD_FACTOR * m.paid + owed <= REWARD_FACTOR * m.emitted + (REWARD_FACTOR - 1) * m.ops
  }

  /** The potential: what was paid plus what is still owed is covered by what was emitted. */
  ghost predicate GradeOk(p: StakePool, ss: Stakes, m: Meter)
  {
    && Sum(LpOf(ss)) == p.totalLp
    && DebtsCovered(ss, p.perShare)
    && PaidWithin(Sum(OwedOf(ss, p.perShare)), m)
  }

  lemma AccruedMono(lp: u128, a: u128, b: u128)
    requires a <= b
    ensures Accrued(lp, a) <= Accrued(lp, b)
  {
    MulMono(a, b, lp);
    FloorMono(SatMul(lp, a), SatMul(lp, b), REWARD_FACTOR);
  }

  /** The payout subtraction never saturates: the debt is at most what has accrued. */
  lemma OwedExact(s: Stake, perShare: u128)
    requires s.debt <= Accrued(s.lp, perShare)
    ensures Owed(s, perShare) == SatMul(s.lp, perShare) - REWARD_FACTOR * s.debt
  {
    FloorBounds(SatMul(s.lp, perShare), REWARD_FACTOR);
    MulMono(s.debt, Accrued(s.lp, perShare), REWARD_FACTOR);
  }

  /** A settled stake is owed less than one unit. */
  lemma SettledOwed(s: Stake, perShare: u128)
    requires s.debt == Accrued(s.lp, perShare)
    ensures Owed(s, perShare) <= REWARD_FACTOR - 1
  {
    FloorBounds(SatMul(s.lp, perShare), REWARD_FACTOR);
    OwedExact(s, perShare);
  }

  // ----- emission

  lemma UpdateEffect(p: StakePool, now: u32)
    ensures var q := UpdatePool(p, now);
            && q.totalLp == p.totalLp && q.leftReward <= p.leftReward && q.perShare >= p.perShare
            && Times(q.perShare - p.perShare, p.totalLp) <= REWARD_FACTOR * (p.leftReward - q.leftReward)
  {
    var q := UpdatePool(p, now);
    if q.perShare != p.perShare {
      var reward := PoolReward(p.lastBlock, now, p.perBlock, p.leftReward);
      var add := PerShare(reward, p.totalLp);
      FloorBounds(SatMul(reward, REWARD_FACTOR), p.totalLp);
      assert add * p.totalLp <= SatMul(reward, REWARD_FACTOR) <= reward * REWARD_FACTOR;
      MulMono(q.perShare - p.perShare, add, p.totalLp);
    }
    TimesIsProduct(q.perShare - p.perShare, p.totalLp);
  }

  lemma OwedGrows(s: Stake, a: u128, b: u128)
    requires a <= b && s.debt <= Accrued(s.lp, a)
    ensures Owed(s, b) <= Owed(s, a) + Times(b - a, s.lp)
  {
    AccruedMono(s.lp, a, b);
    OwedExact(s, a);
    OwedExact(s, b);
    TimesIsProduct(b - a, s.lp);
    assert s.lp * b == s.lp * a + (b - a) * s.lp;
  }

  lemma DebtsStayCovered(ss: Stakes, a: u128, b: u128)
    requires a <= b && DebtsCovered(ss, a)
    ensures DebtsCovered(ss, b)
  {
    forall k | k in ss
      ensures ss[k].debt <= Accrued(ss[k].lp, b)
    {
      AccruedMono(ss[k].lp, a, b);
    }
  }

  lemma OwedSumGrows(ss: Stakes, a: u128, b: u128)
    requires a <= b && DebtsCovered(ss, a)
    ensures Sum(OwedOf(ss, b)) <= Sum(OwedOf(ss, a)) + Times(b - a, Sum(LpOf(ss)))
  {
    var before, after, growth := OwedOf(ss, a), OwedOf(ss, b), Scaled(b - a, LpOf(ss));
    forall k | k in after
      ensures after[k] <= before[k] + growth[k]
    {
      OwedGrows(ss[k], a, b);
    }
    SumPointwise(after, before, growth);
    SumScaled(b - a, LpOf(ss));
    ghost var x, y, z, t := Sum(after), Sum(before), Sum(growth), Times(b - a, Sum(LpOf(ss)));
    assert x <= y + z;
    assert z == t;
    assert x <= y + t;
  }

  lemma EmissionStep(p: StakePool, q: StakePool, ss: Stakes, m: Meter, reward: nat)
    requires GradeOk(p, ss, m)
    requires q.totalLp == p.totalLp && q.perShare >= p.perShare
    requires Times(q.perShare - p.perShare, p.totalLp) <= REWARD_FACTOR * reward
    ensures GradeOk(q, ss, m.(emitted := m.emitted + reward))
  {
    hide Sum, Accrued, OwedOf, LpOf;
    DebtsStayCovered(ss, p.perShare, q.perShare);
    OwedSumGrows(ss, p.perShare, q.perShare);
    ghost var before, after := Sum(OwedOf(ss, p.perShare)), Sum(OwedOf(ss, q.perShare));
    assert after <= before + REWARD_FACTOR * reward;
    assert PaidWithin(after, m.(emitted := m.emitted + reward));
  }

  /** Emission pays for the growth of everything owed. */
  lemma EmissionKeeps(p: StakePool, ss: Stakes, m: Meter, now: u32)
    requires GradeOk(p, ss, m)
    ensures var q := UpdatePool(p, now);
            q.leftReward <= p.leftReward && GradeOk(q, ss, m.(emitted := m.emitted + (p.leftReward - q.leftReward)))
  {
    UpdateEffect(p, now);
    EmissionStep(p, UpdatePool(p, now), ss, m, p.leftReward - UpdatePool(p, now).leftReward);
  }

  // ----- one stake changes

  lemma StakeChange(ss: Stakes, key: StakeKey, s: Stake, perShare: u128)
    ensures Sum(LpOf(ss[key := s])) == Sum(LpOf(ss)) + s.lp - if key in ss then ss[key].lp else 0
    ensures Sum(OwedOf(ss[key := s], perShare))
         == Sum(OwedOf(ss, perShare)) + Owed(s, perShare) - if key in ss then Owed(ss[key], perShare) else 0
  {
    SumInsert(LpOf(ss), key, s.lp);
    SumInsert(OwedOf(ss, perShare), key, Owed(s, perShare));
    assert LpOf(ss[key := s]) == LpOf(ss)[key := s.lp];
    assert OwedOf(ss[key := s], perShare) == OwedOf(ss, perShare)[key := Owed(s, perShare)];
  }

  lemma DepositKeeps(p: StakePool, ss: Stakes, m: Meter, key: StakeKey, s: Stake)
    requires GradeOk(p, ss, m) && key !in ss && s.debt == Accrued(s.lp, p.perShare)
    requires p.totalLp + s.lp <= U128_MAX
    ensures GradeOk(p.(totalLp := p.totalLp + s.lp), ss[key := s], m.(ops := m.ops + 1))
  {
    StakeChange(ss, key, s, p.perShare);
    SettledOwed(s, p.perShare);
  }

  /** A settlement pays exactly what stops being owed. */
  lemma ClaimKeeps(p: StakePool, ss: Stakes, m: Meter, key: StakeKey, s: Stake)
    requires GradeOk(p, ss, m) && key in ss && s.lp == ss[key].lp && s.debt == Accrued(s.lp, p.perShare)
    ensures ss[key].debt <= s.debt
    ensures GradeOk(p, ss[key := s], m.(paid := m.paid + (s.debt - ss[key].debt)))
  {
    StakeChange(ss, key, s, p.perShare);
    OwedExact(ss[key], p.perShare);
    OwedExact(s, p.perShare);
    SumMember(OwedOf(ss, p.perShare), key);
  }

  lemma WithdrawKeeps(p: StakePool, ss: Stakes, m: Meter, key: StakeKey, s: Stake)
    requires GradeOk(p, ss, m) && key in ss && s.lp <= ss[key].lp && s.debt == Accrued(s.lp, p.perShare)
    ensures ss[key].debt <= Accrued(ss[key].lp, p.perShare) && ss[key].lp - s.lp <= p.totalLp
    ensures GradeOk(p.(totalLp := p.totalLp - (ss[key].lp - s.lp)), ss[key := s],
                    m.(paid := m.paid + (Accrued(ss[key].lp, p.perShare) - ss[key].debt), ops := m.ops + 1))
  {
    hide Floor;
    FloorBounds(SatMul(ss[key].lp, p.perShare), REWARD_FACTOR);
    StakeChange(ss, key, s, p.perShare);
    OwedExact(ss[key], p.perShare);
    SettledOwed(s, p.perShare);
    SumMember(OwedOf(ss, p.perShare), key);
    SumMember(LpOf(ss), key);
  }

  lemma EmergencyKeeps(p: StakePool, ss: Stakes, m: Meter, key: StakeKey, s: Stake)
    requires GradeOk(p, ss, m) && key in ss && s.lp == 0 && s.debt == 0
    ensures ss[key].lp <= p.totalLp
    ensures GradeOk(p.(totalLp := p.totalLp - ss[key].lp), ss[key := s], m)
  {
    StakeChange(ss, key, s, p.perShare);
    SumMember(OwedOf(ss, p.perShare), key);
    SumMember(LpOf(ss), key);
  }

  // ----- the whole pallet

  function GradeStakes(stakes: Stakes, i: u32, g: u32): Stakes
  {
    map k | k in stakes && k.0 == i && stakes[k].grade == g :: stakes[k]
  }

  lemma GradeStakesAfter(stakes: Stakes, key: StakeKey, s: Stake, i: u32, g: u32)
    requires key in stakes ==> stakes[key].grade == s.grade
    ensures GradeStakes(stakes[key := s], i, g) ==
            if key.0 == i && s.grade == g then GradeStakes(stakes, i, g)[key := s] else GradeStakes(stakes, i, g)
  {
  }

  ghost predicate GradesOk(w: World)
  {
    forall i: u32, g: u32 :: HasGrade(w.st, i, g) ==>
      GradeOk(w.st.pools[i][g], GradeStakes(w.st.stakes, i, g), MeterOf(w, (i, g)))
  }

  predicate KeysOk(d: State)
  {
    && (forall k :: k in d.stakes ==> k.2 < Count(d, k.0, k.1))
    && (forall i :: i in d.pools ==> i < d.poolCount)
  }

  /** The module account holds every staked unit. */
  ghost predicate VaultOk(d: State) { Sum(LpOf(d.stakes)) <= Free(d.lp, MODULE) && Holdings(d.lp) <= U128_MAX }

  /** Of a grade that has been removed, or never added, nothing is staked and nothing owed. */
  ghost predicate Gone(ss: Stakes, m: Meter)
  {
    (forall k :: k in ss ==> ss[k].lp == 0 && ss[k].debt == 0) && PaidWithin(0, m)
  }

  ghost predicate PastOk(w: World)
  {
    forall i: u32, g: u32 :: !HasGrade(w.st, i, g) ==> Gone(GradeStakes(w.st.stakes, i, g), MeterOf(w, (i, g)))
  }

  ghost predicate Sound(w: World) { GradesOk(w) && KeysOk(w.st) && VaultOk(w.st) && PastOk(w) }

  lemma {:induction false} AllZero(m: map<StakeKey, nat>)
    requires forall k :: k in m ==> m[k] == 0
    ensures Sum(m) == 0
    decreases |m|
  {
    if m != map[] {
      var k :| k in m;
      SumSplit(m, k);
      AllZero(m - {k});
    }
  }

  /** An empty grade can be taken away, and a new one put in its place. */
  lemma EmptyIsGone(p: StakePool, ss: Stakes, m: Meter)
    requires GradeOk(p, ss, m) && p.totalLp == 0
    ensures Gone(ss, m)
  {
    hide Floor;
    forall k | k in ss
      ensures ss[k].lp == 0 && ss[k].debt == 0
    {
      SumMember(LpOf(ss), k);
      FloorIsDivision(0, REWARD_FACTOR);
    }
  }

  lemma GoneIsEmpty(p: StakePool, ss: Stakes, m: Meter)
    requires Gone(ss, m) && p.totalLp == 0
    ensures GradeOk(p, ss, m)
  {
    AllZero(LpOf(ss));
    AllZero(OwedOf(ss, p.perShare));
  }

  lemma GradeWithinVault(w: World, i: u32, g: u32)
    requires Sound(w) && HasGrade(w.st, i, g)
    ensures w.st.pools[i][g].totalLp <= Free(w.st.lp, MODULE)
  {
    assert GradeOk(w.st.pools[i][g], GradeStakes(w.st.stakes, i, g), MeterOf(w, (i, g)));
    SumSubset(LpOf(GradeStakes(w.st.stakes, i, g)), LpOf(w.st.stakes));
  }

  /** One grade and one of its stakes change; every other grade is as before. */
  lemma GradesAfter(w: World, w': World, i: u32, g: u32, p: StakePool, key: StakeKey, s: Stake)
    requires GradesOk(w) && HasGrade(w.st, i, g)
    requires key.0 == i && s.grade == g && (key in w.st.stakes ==> w.st.stakes[key].grade == g)
    requires w'.st.pools == SetPool(w.st, i, g, p).pools
    requires w'.st.stakes == w.st.stakes[key := s]
    requires forall x: GradeKey :: x != (i, g) ==> MeterOf(w', x) == MeterOf(w, x)
    requires GradeOk(p, GradeStakes(w.st.stakes, i, g)[key := s], MeterOf(w', (i, g)))
    ensures GradesOk(w')
  {
    forall j: u32, h: u32 | HasGrade(w'.st, j, h)
      ensures GradeOk(w'.st.pools[j][h], GradeStakes(w'.st.stakes, j, h), MeterOf(w', (j, h)))
    {
      GradeStakesAfter(w.st.stakes, key, s, j, h);
      if (j, h) != (i, g) {
        assert GradeOk(w.st.pools[j][h], GradeStakes(w.st.stakes, j, h), MeterOf(w, (j, h)));
      }
    }
  }

  /** Staked LP and the vault after one stake changes. */
  lemma VaultAfter(d: State, d': State, key: StakeKey, s: Stake)
    requires VaultOk(d) && Holdings(d'.lp) <= U128_MAX && d'.stakes == d.stakes[key := s]
    requires Free(d.lp, MODULE) + s.lp <= Free(d'.lp, MODULE) + if key in d.stakes then d.stakes[key].lp else 0
    ensures VaultOk(d')
  {
    StakeChange(d.stakes, key, s, 0);
  }
}
